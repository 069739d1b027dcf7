/**
 Who answers for a container when starts, stops, updates and recovery interleave
 (docker.go, database_instances.go, api.go).  Every step is one call: into Docker, one
 transaction, or taking and giving back the operation lock.
 */
module Ownership {
  import Store

  type ThreadId = nat
  type ContainerId = nat
  type InstanceId = nat

  datatype Lock = Unlocked | Shared | Exclusive

  /** Who is to own what is being created: an instance whose row has just been made, one that
      exists already, or, for the container a build is read from, nobody. */
  datatype Target = New(i: InstanceId) | Existing(i: InstanceId) | Nobody

  /** `mine` are containers a start has recorded as retired, `pending` one it has created and
      not recorded.  A clean-up works through what a failed start has left.  `todo` is a
      snapshot: of the containers of an instance, or of retired ones. */
  datatype Work =
    | Resting
    | Starting(target: Target, mine: set<ContainerId>, pending: set<ContainerId>)
    | CleaningUp(target: Target, mine: set<ContainerId>, pending: set<ContainerId>)
    | Stopping(i: InstanceId, todo: set<ContainerId>)
    | Sweeping(todo: set<ContainerId>)

  datatype Thread = Thread(lock: Lock, work: Work)

  /** `leaked` is a history variable: containers nobody answers for any more. */
  datatype State = State(
    threads: map<ThreadId, Thread>,
    existing: set<ContainerId>,
    active: map<InstanceId, set<ContainerId>>,
    retired: set<ContainerId>,
    next: ContainerId,
    leaked: set<ContainerId>)

  datatype Step =
    | Acquire(t: ThreadId, lock: Lock)
    | Release(t: ThreadId)
    | Open(t: ThreadId, i: InstanceId)
    | BeginReplace(t: ThreadId, i: InstanceId)
    | BeginBuild(t: ThreadId)
    | Create(t: ThreadId)
    | Record(t: ThreadId)
    | Clean(t: ThreadId)
    | Hand(t: ThreadId)
    | Restore(t: ThreadId, i: InstanceId, ids: set<ContainerId>)
    | Remove(t: ThreadId, c: ContainerId)
    | Forget(t: ThreadId, c: ContainerId)
    | Settle(t: ThreadId)
    | RetireAfterAll(t: ThreadId)
    | GiveUp(t: ThreadId)
    | BeginStop(t: ThreadId, i: InstanceId)
    | DropRow(t: ThreadId, c: ContainerId)
    | DropInstance(t: ThreadId)
    | BeginSweep(t: ThreadId, todo: set<ContainerId>)
    | End(t: ThreadId)
    | Crash(t: ThreadId)

  function Mine(w: Work): set<ContainerId> {
    match w
    case Starting(_, mine, _) => mine
    case CleaningUp(_, mine, _) => mine
    case _ => {}
  }

  function Pending(w: Work): set<ContainerId> {
    match w
    case Starting(_, _, pending) => pending
    case CleaningUp(_, _, pending) => pending
    case _ => {}
  }

  /** What a start or its clean-up has in hand. */
  function Held(w: Work): set<ContainerId> {
    Mine(w) + Pending(w)
  }

  function Todo(w: Work): set<ContainerId> {
    match w
    case Stopping(_, todo) => todo
    case Sweeping(todo) => todo
    case _ => {}
  }

  function Known(w: Work): set<ContainerId> {
    Held(w) + Todo(w)
  }

  /** The containers this work may remove. */
  function Removable(w: Work): set<ContainerId> {
    match w
    case CleaningUp(_, mine, pending) => mine + pending
    case _ => Todo(w)
  }

  /** A failed start takes back the row it has made. */
  predicate Abandons(w: Work) {
    w.CleaningUp? && w.target.New?
  }

  ghost predicate IsActive(active: map<InstanceId, set<ContainerId>>, c: ContainerId) {
    exists i :: i in active && c in active[i]
  }

  ghost predicate Working(s: State, t: ThreadId) {
    t in s.threads && !s.threads[t].lock.Unlocked?
  }

  ghost predicate Enabled(s: State, step: Step) {
    match step
    case Acquire(t, lock) =>
      && t in s.threads && s.threads[t].lock.Unlocked? && !lock.Unlocked?
      && (forall u | u in s.threads :: s.threads[u].lock.Unlocked? || (lock.Shared? && s.threads[u].lock.Shared?))
    case Release(t) => Working(s, t) && s.threads[t].work.Resting?
    case Open(t, i) => Working(s, t) && s.threads[t].work.Resting? && Store.IsNext(s.active.Keys, i)
    // Only an update replaces the containers of an instance there is.
    case BeginReplace(t, i) => Working(s, t) && s.threads[t].work.Resting? && s.threads[t].lock.Exclusive? && i in s.active
    case BeginBuild(t) => Working(s, t) && s.threads[t].work.Resting?
    case Create(t) => Working(s, t) && s.threads[t].work.Starting? && Pending(s.threads[t].work) == {}
    case Record(t) => Working(s, t) && s.threads[t].work.Starting?
    // A start that fails, and a build that has been read.
    case Clean(t) => Working(s, t) && s.threads[t].work.Starting?
    // The foreign key of `containers` refuses an instance that is gone.
    case Hand(t) =>
      && Working(s, t) && s.threads[t].work.Starting? && Pending(s.threads[t].work) == {}
      && !s.threads[t].work.target.Nobody?
      && (s.threads[t].work.target.i in s.active || Mine(s.threads[t].work) == {})
    // An update that is rolled back gives an instance its retired containers again.
    case Restore(t, i, ids) =>
      Working(s, t) && s.threads[t].lock.Exclusive? && s.threads[t].work.Resting? && i in s.active && ids <= s.retired
    case Remove(t, c) => Working(s, t) && c in Removable(s.threads[t].work)
    case Forget(t, c) => Working(s, t) && c in Removable(s.threads[t].work) && c !in s.existing
    case Settle(t) => Working(s, t) && s.threads[t].work.CleaningUp? && Pending(s.threads[t].work) !! s.existing
    case RetireAfterAll(t) => Working(s, t) && s.threads[t].work.CleaningUp?
    case GiveUp(t) => Working(s, t) && s.threads[t].work.CleaningUp?
    case BeginStop(t, i) => Working(s, t) && s.threads[t].work.Resting? && i in s.active
    case DropRow(t, c) =>
      && Working(s, t) && s.threads[t].work.Stopping? && c in s.threads[t].work.todo
      && c !in s.existing && s.threads[t].work.i in s.active
    // The row goes with whatever it owns by then: all that is looked at before is the snapshot.
    case DropInstance(t) =>
      Working(s, t) && ((s.threads[t].work.Stopping? && Todo(s.threads[t].work) == {}) || (Abandons(s.threads[t].work) && Pending(s.threads[t].work) == {}))
    case BeginSweep(t, todo) => Working(s, t) && s.threads[t].lock.Exclusive? && s.threads[t].work.Resting? && todo <= s.retired
    case End(t) => Working(s, t) && (s.threads[t].work.Stopping? || s.threads[t].work.Sweeping? || (s.threads[t].work.CleaningUp? && Pending(s.threads[t].work) == {}))
    case Crash(t) => Working(s, t)
  }

  ghost function Doing(s: State, t: ThreadId, w: Work): State
    requires t in s.threads
  {
    s.(threads := s.threads[t := s.threads[t].(work := w)])
  }

  /** The instance owns `ids` instead of what it owned, which is retired. */
  ghost function Assigned(s: State, i: InstanceId, ids: set<ContainerId>): State
    requires i in s.active
  {
    s.(active := s.active[i := ids], retired := (s.retired - ids) + (s.active[i] - ids))
  }

  /** The row this work deletes in the end. */
  function RowOf(w: Work): InstanceId
    requires w.Stopping? || Abandons(w)
  {
    if w.Stopping? then w.i else w.target.i
  }

  ghost function Apply(s: State, step: Step): State
    requires Enabled(s, step)
  {
    match step
    case Acquire(t, lock) => s.(threads := s.threads[t := Thread(lock, Resting)])
    case Release(t) => s.(threads := s.threads[t := Thread(Unlocked, Resting)])
    case Open(t, i) => Doing(s, t, Starting(New(i), {}, {})).(active := s.active[i := {}])
    case BeginReplace(t, i) => Doing(s, t, Starting(Existing(i), {}, {}))
    case BeginBuild(t) => Doing(s, t, Starting(Nobody, {}, {}))
    case Create(t) =>
      var w := s.threads[t].work;
      Doing(s, t, Starting(w.target, w.mine, {s.next})).(existing := s.existing + {s.next}, next := s.next + 1)
    case Record(t) =>
      var w := s.threads[t].work;
      Doing(s, t, Starting(w.target, w.mine + w.pending, {})).(retired := s.retired + w.pending)
    case Clean(t) =>
      var w := s.threads[t].work;
      Doing(s, t, CleaningUp(w.target, w.mine, w.pending))
    case Hand(t) =>
      var w := s.threads[t].work;
      if w.target.i !in s.active then Doing(s, t, Resting)
      else Assigned(Doing(s, t, Resting), w.target.i, if w.target.New? then s.active[w.target.i] + w.mine else w.mine)
    case Restore(t, i, ids) => Assigned(s, i, ids)
    case Remove(t, c) => s.(existing := s.existing - {c})
    case Forget(t, c) =>
      var w := s.threads[t].work;
      var next := match w
        case CleaningUp(target, mine, pending) => CleaningUp(target, mine - {c}, pending)
        case Stopping(i, todo) => Stopping(i, todo - {c})
        case Sweeping(todo) => Sweeping(todo - {c})
        case _ => w;
      Doing(s, t, next).(retired := s.retired - {c})
    case Settle(t) => Doing(s, t, s.threads[t].work.(pending := {}))
    case RetireAfterAll(t) =>
      var w := s.threads[t].work;
      Doing(s, t, CleaningUp(w.target, w.mine + w.pending, {})).(retired := s.retired + w.pending)
    case GiveUp(t) =>
      Doing(s, t, s.threads[t].work.(pending := {})).(leaked := s.leaked + Pending(s.threads[t].work))
    case BeginStop(t, i) => Doing(s, t, Stopping(i, s.active[i]))
    case DropRow(t, c) =>
      var i := s.threads[t].work.i;
      s.(active := s.active[i := s.active[i] - {c}])
    case DropInstance(t) => Doing(s, t, Resting).(active := s.active - {RowOf(s.threads[t].work)})
    case BeginSweep(t, todo) => Doing(s, t, Sweeping(todo))
    case End(t) => Doing(s, t, Resting)
    case Crash(t) =>
      s.(threads := s.threads[t := Thread(Unlocked, Resting)], leaked := s.leaked + Pending(s.threads[t].work))
  }

  // -------------------------------------------------------------- invariant

  /** The operation lock: an exclusive holder is alone, and work is done under the lock only. */
  ghost predicate Locking(s: State) {
    && (forall t, u | t in s.threads && u in s.threads && t != u && s.threads[t].lock.Exclusive? :: s.threads[u].lock.Unlocked?)
    && (forall t | t in s.threads && s.threads[t].lock.Unlocked? :: s.threads[t].work.Resting?)
    && (forall t | t in s.threads && s.threads[t].work.Sweeping? :: s.threads[t].lock.Exclusive?)
    && (forall t | t in s.threads && s.threads[t].work.Starting? && s.threads[t].work.target.Existing? :: s.threads[t].lock.Exclusive?)
  }

  /** No container is both owned and waiting to be removed, and none has two owners. */
  ghost predicate ActiveApart(s: State) {
    && (forall i, c | i in s.active && c in s.active[i] :: c !in s.retired)
    && (forall i, j, c | i in s.active && j in s.active && c in s.active[i] && c in s.active[j] :: i == j)
  }

  /** What a start has made is recorded as retired, but for one, and belongs to nobody else. */
  ghost predicate StartsApart(s: State) {
    && (forall t, c | t in s.threads && c in Mine(s.threads[t].work) :: c in s.retired)
    && (forall t, c | t in s.threads && c in Pending(s.threads[t].work) :: c !in s.retired && !IsActive(s.active, c))
    && (forall t | t in s.threads :: |Pending(s.threads[t].work)| <= 1)
    && (forall t, u, c | t in s.threads && u in s.threads && t != u
                         && c in Held(s.threads[t].work) ::
          c !in Held(s.threads[u].work) && c !in Todo(s.threads[u].work))
  }

  ghost predicate Issued(s: State) {
    && (forall c: ContainerId | c in s.existing || c in s.retired || IsActive(s.active, c) :: c < s.next)
    && (forall t, c | t in s.threads && c in Known(s.threads[t].work) :: c < s.next)
    && (forall c | c in s.leaked :: c < s.next)
  }

  ghost predicate Inv(s: State) {
    Locking(s) && ActiveApart(s) && StartsApart(s) && Issued(s)
  }

  ghost predicate Init(s: State) {
    && (forall t | t in s.threads :: s.threads[t] == Thread(Unlocked, Resting))
    && s.existing == {} && s.active == map[] && s.retired == {} && s.leaked == {}
  }

  lemma InitInv(s: State)
    requires Init(s)
    ensures Inv(s)
  {
    assert forall t | t in s.threads :: s.threads[t].work == Resting;
    assert forall t | t in s.threads :: Known(s.threads[t].work) == {};
  }

  lemma LockingKept(s: State, step: Step)
    requires Inv(s) && Enabled(s, step)
    ensures Locking(Apply(s, step))
  {
    hide ActiveApart, StartsApart, Issued, Enabled, Apply;
    OneWorks(s, step);
    OwnLock(s, step);
  }

  /** What the stepping thread's lock allows it. */
  lemma OwnLock(s: State, step: Step)
    requires Locking(s) && Enabled(s, step)
    ensures
      var d, t := Apply(s, step), step.t;
      && t in s.threads && t in d.threads
      && (d.threads[t].lock == s.threads[t].lock || d.threads[t].lock.Unlocked? || (step.Acquire? &&
           forall u | u in s.threads && u != t :: s.threads[u].lock.Unlocked? || (s.threads[u].lock.Shared? && d.threads[t].lock.Shared?)))
      && (d.threads[t].lock.Unlocked? ==> d.threads[t].work.Resting?)
      && (d.threads[t].work.Sweeping? ==> d.threads[t].lock.Exclusive?)
      && (d.threads[t].work.Starting? && d.threads[t].work.target.Existing? ==> d.threads[t].lock.Exclusive?)
  {
    hide IsActive, Store.IsNext;
  }

  // -- steps that give an instance other containers

  ghost predicate Assigns(s: State, step: Step)
    requires Enabled(s, step)
  {
    step.Open? || step.Restore? || (step.Hand? && s.threads[step.t].work.target.i in s.active)
  }

  predicate Drops(step: Step) {
    step.DropRow? || step.DropInstance?
  }

  ghost function Receiver(s: State, step: Step): InstanceId
    requires Enabled(s, step) && Assigns(s, step)
  {
    if step.Hand? then s.threads[step.t].work.target.i else step.i
  }

  ghost function Given(s: State, step: Step): set<ContainerId>
    requires Enabled(s, step) && Assigns(s, step)
  {
    if step.Open? then {}
    else if step.Restore? then step.ids
    else (if s.threads[step.t].work.target.New? then s.active[Receiver(s, step)] else {}) + Mine(s.threads[step.t].work)
  }

  /** What an instance is given was its own or retired, what it loses is retired. */
  ghost predicate Reassigned(s: State, d: State, i: InstanceId, ids: set<ContainerId>) {
    var previous := if i in s.active then s.active[i] else {};
    && d.active == s.active[i := ids]
    && ids <= s.retired + previous
    && d.retired == (s.retired - ids) + (previous - ids)
    && d.existing == s.existing
  }

  lemma ReassignedApart(s: State, d: State, i: InstanceId, ids: set<ContainerId>)
    requires ActiveApart(s) && Reassigned(s, d, i, ids)
    ensures ActiveApart(d)
    ensures forall c: ContainerId :: IsActive(d.active, c) || c in d.retired <==> IsActive(s.active, c) || c in s.retired
    ensures forall c: ContainerId | c !in s.retired && !IsActive(s.active, c) :: c !in d.retired && !IsActive(d.active, c)
  {
    forall c: ContainerId | IsActive(s.active, c)
      ensures IsActive(d.active, c) || c in d.retired
    {
      var j :| j in s.active && c in s.active[j];
      if j != i { assert c in d.active[j]; }
    }
    forall c: ContainerId | c in ids ensures IsActive(d.active, c) { assert c in d.active[i]; }
    forall c: ContainerId | IsActive(d.active, c)
      ensures IsActive(s.active, c) || c in s.retired
    {
      var j :| j in d.active && c in d.active[j];
      if j != i || c !in s.retired { assert c in s.active[j]; }
    }
    forall c: ContainerId | c in d.retired && c !in s.retired ensures IsActive(s.active, c) { assert c in s.active[i]; }
  }

  lemma AssignsIsReassigned(s: State, step: Step)
    requires Inv(s) && Enabled(s, step) && Assigns(s, step)
    ensures Reassigned(s, Apply(s, step), Receiver(s, step), Given(s, step))
  {
    hide Issued, Locking, ActiveApart, IsActive;
    if step.Hand? { assert forall c | c in Mine(s.threads[step.t].work) :: c in s.retired; }
  }

  /** Rows that go. */
  ghost predicate Reduced(s: State, d: State) {
    && d.retired == s.retired && d.existing == s.existing
    && (forall i | i in d.active :: i in s.active && d.active[i] <= s.active[i])
  }

  lemma DropIsReduced(s: State, step: Step)
    requires Enabled(s, step) && Drops(step)
    ensures Reduced(s, Apply(s, step))
  {
  }

  lemma ReducedApart(s: State, d: State)
    requires ActiveApart(s) && Reduced(s, d)
    ensures ActiveApart(d)
    ensures forall c: ContainerId | IsActive(d.active, c) :: IsActive(s.active, c)
  {
    forall c: ContainerId | IsActive(d.active, c) ensures IsActive(s.active, c) {
      var j :| j in d.active && c in d.active[j];
      assert c in s.active[j];
    }
  }

  lemma ApartKept(s: State, step: Step)
    requires Inv(s) && Enabled(s, step)
    ensures ActiveApart(Apply(s, step))
  {
    hide Locking, Issued, Reassigned, Reduced;
    var d := Apply(s, step);
    if Assigns(s, step) {
      AssignsIsReassigned(s, step);
      ReassignedApart(s, d, Receiver(s, step), Given(s, step));
    } else if Drops(step) {
      DropIsReduced(s, step);
      ReducedApart(s, d);
    } else {
      RetiredOnly(s, step);
    }
  }

  /** Steps that assign nothing retire at most what was pending. */
  lemma RetiresPending(s: State, step: Step)
    requires Enabled(s, step) && !Assigns(s, step) && !Drops(step)
    ensures Apply(s, step).active == s.active
    ensures forall c | c in Apply(s, step).retired && c !in s.retired :: (step.Record? || step.RetireAfterAll?) && c in Pending(s.threads[step.t].work)
  {
    hide IsActive;
  }

  lemma ApartGrowing(s: State, d: State, ids: set<ContainerId>)
    requires ActiveApart(s) && d.active == s.active && (forall c | c in d.retired && c !in s.retired :: c in ids)
    requires forall c | c in ids :: !IsActive(s.active, c)
    ensures ActiveApart(d)
  {
  }

  lemma RetiredOnly(s: State, step: Step)
    requires Inv(s) && Enabled(s, step) && !Assigns(s, step) && !Drops(step)
    ensures Apply(s, step).active == s.active && ActiveApart(Apply(s, step))
    ensures forall c | c in Apply(s, step).retired && c !in s.retired :: (step.Record? || step.RetireAfterAll?) && c in Pending(s.threads[step.t].work)
  {
    hide Locking, Issued, IsActive, Apply, Enabled, ActiveApart;
    OneWorks(s, step);
    RetiresPending(s, step);
    ApartGrowing(s, Apply(s, step), Pending(s.threads[step.t].work));
  }

  // -- starts

  /** Only the stepping thread's work changes. */
  lemma OneWorks(s: State, step: Step)
    requires Enabled(s, step)
    ensures step.t in s.threads && Apply(s, step).threads.Keys == s.threads.Keys
    ensures forall u | u in s.threads && u != step.t :: Apply(s, step).threads[u] == s.threads[u]
  {
    hide IsActive;
  }

  /** What the stepping thread may come to hold: nothing new but a fresh id, and as work to do
      only what is owned or, for an exclusive sweep, retired. */
  lemma WorkGrows(s: State, step: Step)
    requires Inv(s) && Enabled(s, step)
    ensures
      var d, t := Apply(s, step), step.t;
      var was, now := s.threads[t].work, d.threads[t].work;
      && (forall c | c in Held(now) :: c in Held(was) || (c == s.next && step.Create?))
      && (forall c | c in Todo(now) :: c in Todo(was) || IsActive(s.active, c) || (c in s.retired && s.threads[t].lock.Exclusive?))
      && |Pending(now)| <= 1
  {
    hide Inv, IsActive, Enabled, Apply, Held, Todo, Pending;
    HeldGrows(s, step);
    TodoGrows(s, step);
  }

  lemma HeldGrows(s: State, step: Step)
    requires Inv(s) && Enabled(s, step)
    ensures step.t in s.threads && step.t in Apply(s, step).threads
    ensures var was, now := s.threads[step.t].work, Apply(s, step).threads[step.t].work;
      && (forall c | c in Held(now) :: c in Held(was) || (c == s.next && step.Create?))
      && |Pending(now)| <= 1
  {
    hide Inv, Enabled, Apply, Mine, Pending;
    MineGrows(s, step);
    PendingGrows(s, step);
    OnePending(s, step.t);
    NoMore(Apply(s, step), step.t, Pending(s.threads[step.t].work));
  }

  lemma MineGrows(s: State, step: Step)
    requires Enabled(s, step)
    ensures step.t in s.threads && step.t in Apply(s, step).threads
    ensures Mine(Apply(s, step).threads[step.t].work) <= Held(s.threads[step.t].work)
  {
    hide IsActive, Store.IsNext;
  }

  lemma PendingGrows(s: State, step: Step)
    requires Enabled(s, step)
    ensures step.t in s.threads && step.t in Apply(s, step).threads
    ensures var was, now := Pending(s.threads[step.t].work), Pending(Apply(s, step).threads[step.t].work);
      now == was || now == {} || (step.Create? && now == {s.next})
  {
    hide IsActive, Store.IsNext;
  }

  lemma NoMore(d: State, t: ThreadId, was: set<ContainerId>)
    requires t in d.threads && |was| <= 1
    ensures Pending(d.threads[t].work) == was || Pending(d.threads[t].work) == {} ==> |Pending(d.threads[t].work)| <= 1
  {
  }

  lemma TodoGrows(s: State, step: Step)
    requires Enabled(s, step)
    ensures var was, now := s.threads[step.t].work, Apply(s, step).threads[step.t].work;
      forall c | c in Todo(now) :: c in Todo(was) || IsActive(s.active, c) || (c in s.retired && s.threads[step.t].lock.Exclusive?)
  {
  }

  /** Facts about what two threads hold, in one state. */
  lemma HeldBefore(s: State, t: ThreadId, u: ThreadId, c: ContainerId)
    requires Inv(s) && t in s.threads && u in s.threads && t != u && c in Held(s.threads[t].work)
    ensures c !in Held(s.threads[u].work) && c !in Todo(s.threads[u].work)
    ensures c < s.next && !IsActive(s.active, c) && !s.threads[u].lock.Exclusive?
    ensures c in Mine(s.threads[t].work) ==> c in s.retired
  {
    hide IsActive;
    assert c in Known(s.threads[t].work);
    if c in Mine(s.threads[t].work) {
      assert c in s.retired;
      NotActive(s, c);
    }
  }

  lemma Numbered(s: State, t: ThreadId, c: ContainerId)
    requires Issued(s) && t in s.threads
    ensures c in Held(s.threads[t].work) || c in Todo(s.threads[t].work) ==> c < s.next
    ensures IsActive(s.active, c) || c in s.retired ==> c < s.next
  {
    hide IsActive;
    assert c in Held(s.threads[t].work) || c in Todo(s.threads[t].work) ==> c in Known(s.threads[t].work);
  }

  lemma NotActive(s: State, c: ContainerId)
    requires ActiveApart(s) && c in s.retired
    ensures !IsActive(s.active, c)
  {
  }

  lemma MineRetiredOwn(s: State, step: Step, c: ContainerId)
    requires StartsApart(s) && Enabled(s, step) && c in Mine(Apply(s, step).threads[step.t].work)
    ensures c in Apply(s, step).retired
  {
    hide IsActive;
    assert c in Mine(s.threads[step.t].work) ==> c in s.retired;
  }

  lemma StaysRetired(s: State, step: Step, c: ContainerId)
    requires Inv(s) && Enabled(s, step) && c in s.retired && !s.threads[step.t].lock.Exclusive?
    requires c !in Held(s.threads[step.t].work) && c !in Todo(s.threads[step.t].work)
    ensures c in Apply(s, step).retired
  {
    hide IsActive;
  }

  lemma MineRetired(s: State, step: Step, u: ThreadId, c: ContainerId)
    requires Inv(s) && Enabled(s, step) && u in s.threads && c in Mine(Apply(s, step).threads[u].work)
    ensures c in Apply(s, step).retired
  {
    hide ActiveApart, IsActive, Issued, Locking, Apply, Enabled, Todo;
    OneWorks(s, step);
    if u == step.t {
      MineRetiredOwn(s, step, c);
    } else {
      HeldBefore(s, u, step.t, c);
      StaysRetired(s, step, c);
    }
  }

  lemma PendingApart(s: State, step: Step, u: ThreadId, c: ContainerId)
    requires Inv(s) && Enabled(s, step) && u in s.threads && c in Pending(Apply(s, step).threads[u].work)
    ensures c !in Apply(s, step).retired && !IsActive(Apply(s, step).active, c)
  {
    hide Locking, Reassigned, Reduced, IsActive;
    var d := Apply(s, step);
    OneWorks(s, step);
    PendingBefore(s, step, u, c);
    if Assigns(s, step) {
      AssignsIsReassigned(s, step);
      ReassignedApart(s, d, Receiver(s, step), Given(s, step));
    } else if Drops(step) {
      DropIsReduced(s, step);
      ReducedApart(s, d);
    } else {
      RetiredOnly(s, step);
    }
  }

  lemma InvIssued(s: State)
    requires Inv(s)
    ensures Issued(s)
  {
  }

  lemma PendingBeforeOwn(s: State, step: Step, c: ContainerId)
    requires StartsApart(s) && Enabled(s, step) && c in Pending(Apply(s, step).threads[step.t].work)
    ensures (c !in s.retired && !IsActive(s.active, c)) || c == s.next
    ensures !step.Record? && !step.RetireAfterAll?
  {
    hide IsActive;
    assert c in Pending(s.threads[step.t].work) ==> c !in s.retired && !IsActive(s.active, c);
  }

  lemma PendingBefore(s: State, step: Step, u: ThreadId, c: ContainerId)
    requires Inv(s) && Enabled(s, step) && u in s.threads && c in Pending(Apply(s, step).threads[u].work)
    ensures c !in s.retired && !IsActive(s.active, c)
    ensures u == step.t ==> !step.Record? && !step.RetireAfterAll?
    ensures u != step.t ==> c !in Pending(s.threads[step.t].work)
  {
    hide Locking, IsActive, ActiveApart, Issued, Apply, Enabled;
    OneWorks(s, step);
    InvIssued(s);
    if u == step.t {
      PendingBeforeOwn(s, step, c);
      Numbered(s, u, s.next);
    } else {
      HeldBefore(s, u, step.t, c);
    }
  }

  lemma ThreadsApart(s: State, step: Step, t: ThreadId, u: ThreadId, c: ContainerId)
    requires Inv(s) && Enabled(s, step) && t in s.threads && u in s.threads && t != u
    requires c in Held(Apply(s, step).threads[t].work)
    ensures c !in Held(Apply(s, step).threads[u].work) && c !in Todo(Apply(s, step).threads[u].work)
  {
    hide Apply, Enabled, IsActive;
    OneWorks(s, step);
    WorkGrows(s, step);
    if c in Held(s.threads[t].work) { HeldBefore(s, t, u, c); }
    if c in Held(s.threads[u].work) { HeldBefore(s, u, t, c); }
    Numbered(s, t, c);
    Numbered(s, u, c);
  }

  lemma StartsKept(s: State, step: Step)
    requires Inv(s) && Enabled(s, step)
    ensures StartsApart(Apply(s, step))
  {
    hide Inv, Enabled, Apply, IsActive, Mine, Pending, Todo;
    var d := Apply(s, step);
    OneWorks(s, step);
    WorkGrows(s, step);
    forall t, c | t in d.threads && c in Mine(d.threads[t].work) ensures c in d.retired { MineRetired(s, step, t, c); }
    forall t, c | t in d.threads && c in Pending(d.threads[t].work) ensures c !in d.retired && !IsActive(d.active, c) { PendingApart(s, step, t, c); }
    forall t | t in d.threads ensures |Pending(d.threads[t].work)| <= 1 { OnePending(s, t); }
    forall t, u, c | t in d.threads && u in d.threads && t != u && c in Held(d.threads[t].work)
      ensures c !in Held(d.threads[u].work) && c !in Todo(d.threads[u].work)
    {
      ThreadsApart(s, step, t, u, c);
    }
  }

  lemma OnePending(s: State, t: ThreadId)
    requires Inv(s) && t in s.threads
    ensures |Pending(s.threads[t].work)| <= 1
  {
  }

  lemma IssuedKept(s: State, step: Step)
    requires Inv(s) && Enabled(s, step)
    ensures Issued(Apply(s, step))
  {
    hide Inv, Enabled, Apply, IsActive, Known;
    var d := Apply(s, step);
    OneWorks(s, step);
    forall c: ContainerId | c in d.existing || c in d.retired || IsActive(d.active, c)
      ensures c < d.next
    {
      IssuedContainer(s, step, c);
    }
    forall t, c | t in d.threads && c in Known(d.threads[t].work)
      ensures c < d.next
    {
      IssuedWork(s, step, t, c);
    }
    forall c | c in d.leaked ensures c < d.next { IssuedLeak(s, step, c); }
  }

  lemma IssuedLeak(s: State, step: Step, c: ContainerId)
    requires Inv(s) && Enabled(s, step) && c in Apply(s, step).leaked
    ensures c < Apply(s, step).next
  {
    hide Locking, ActiveApart, StartsApart, IsActive;
    assert c in s.leaked || c in Known(s.threads[step.t].work);
  }

  lemma IssuedContainer(s: State, step: Step, c: ContainerId)
    requires Inv(s) && Enabled(s, step)
    requires var d := Apply(s, step); c in d.existing || c in d.retired || IsActive(d.active, c)
    ensures c < Apply(s, step).next
  {
    hide Locking, ActiveApart, StartsApart, Reassigned, Reduced, IsActive;
    var d := Apply(s, step);
    if Assigns(s, step) {
      AssignsIsReassigned(s, step);
      ReassignedApart(s, d, Receiver(s, step), Given(s, step));
    } else if Drops(step) {
      DropIsReduced(s, step);
      ReducedApart(s, d);
    } else {
      RetiredOnly(s, step);
      Numbered(s, step.t, c);
    }
  }

  lemma IssuedWork(s: State, step: Step, t: ThreadId, c: ContainerId)
    requires Inv(s) && Enabled(s, step) && t in s.threads
    requires c in Known(Apply(s, step).threads[t].work)
    ensures c < Apply(s, step).next
  {
    hide Inv, IsActive;
    OneWorks(s, step);
    WorkGrows(s, step);
    InvIssued(s);
    Numbered(s, t, c);
  }

  lemma InvKept(s: State, step: Step)
    requires Inv(s) && Enabled(s, step)
    ensures Inv(Apply(s, step))
  {
    hide Locking, ActiveApart, StartsApart, Issued, Enabled, Apply;
    LockingKept(s, step);
    ApartKept(s, step);
    StartsKept(s, step);
    IssuedKept(s, step);
  }

  // -------------------------------------------------- rows that are under way

  ghost predicate Starts(s: State, t: ThreadId, i: InstanceId) {
    t in s.threads && s.threads[t].work.Starting? && s.threads[t].work.target == New(i)
  }

  /** The thread means to delete row `i`. */
  ghost predicate Ends(s: State, t: ThreadId, i: InstanceId) {
    t in s.threads && (s.threads[t].work.Stopping? || Abandons(s.threads[t].work)) && RowOf(s.threads[t].work) == i
  }

  /** No stop meets the start of its own instance, and no new row gets an id that somebody still
      means to delete. */
  ghost predicate Careful(s: State, step: Step) {
    match step
    case BeginStop(_, i) => forall u :: !Starts(s, u, i)
    case Open(_, i) => forall u :: !Ends(s, u, i)
    case _ => true
  }

  /** A row that is being started owns nothing yet and is nobody else's business; one that is
      being ended owns nothing but what its thread has on its list. */
  ghost predicate Rows(s: State) {
    && (forall t, i | Starts(s, t, i) :: i in s.active && s.active[i] == {})
    && (forall t, u, i | Starts(s, t, i) && Starts(s, u, i) :: t == u)
    && (forall t, u, i | Starts(s, t, i) :: !Ends(s, u, i))
    && (forall t, i, c | Ends(s, t, i) && i in s.active && c in s.active[i] && c in s.existing :: c in Todo(s.threads[t].work))
  }

  ghost predicate IsPending(threads: map<ThreadId, Thread>, c: ContainerId) {
    exists t :: t in threads && c in Pending(threads[t].work)
  }

  /** Nobody answers for `c`, and nobody has given it up. */
  ghost predicate Lost(s: State, c: ContainerId) {
    c in s.existing && !IsActive(s.active, c) && c !in s.retired && !IsPending(s.threads, c) && c !in s.leaked
  }

  ghost predicate Accounted(s: State) {
    forall c | c in s.existing :: !Lost(s, c)
  }

  lemma WhoStarts(s: State, step: Step, t: ThreadId, i: InstanceId)
    requires Enabled(s, step) && Starts(Apply(s, step), t, i)
    ensures step == Open(t, i) || (Starts(s, t, i) && (step.t == t ==> step.Create? || step.Record?))
  {
    hide IsActive, Store.IsNext;
  }

  lemma WhoEnds(s: State, step: Step, t: ThreadId, i: InstanceId)
    requires Enabled(s, step) && Ends(Apply(s, step), t, i)
    ensures step == BeginStop(t, i) || (step == Clean(t) && Starts(s, t, i)) || Ends(s, t, i)
    ensures Ends(s, t, i) ==> forall c | c in Todo(s.threads[t].work) && c in s.existing :: c in Todo(Apply(s, step).threads[t].work)
  {
    hide IsActive, Store.IsNext;
  }

  /** An exclusive holder works alone. */
  lemma WorksAlone(s: State, t: ThreadId, u: ThreadId, i: InstanceId)
    requires Inv(s) && t in s.threads && t != u
    ensures s.threads[t].lock.Exclusive? ==> !Starts(s, u, i) && !Ends(s, u, i)
  {
    hide ActiveApart, StartsApart, Issued;
  }

  /** What a row can come to own. */
  lemma RowAfter(s: State, step: Step, i: InstanceId)
    requires Inv(s) && Enabled(s, step)
    ensures
      var d := Apply(s, step);
      && (i in d.active ==> forall c | c in d.active[i] :: (i in s.active && c in s.active[i]) || (Assigns(s, step) && Receiver(s, step) == i && c in Given(s, step)))
      && (i in s.active && i !in d.active ==> step.DropInstance? && Ends(s, step.t, i))
  {
    hide ActiveApart, StartsApart, Issued, IsActive, Store.IsNext, Locking;
  }

  /** Rows are given containers by their own start, or by an exclusive holder of the lock. */
  lemma GivenByOwnStart(s: State, step: Step, c: ContainerId)
    requires Inv(s) && Enabled(s, step) && Assigns(s, step) && c in Given(s, step)
    ensures s.threads[step.t].lock.Exclusive? || (step.Hand? && Starts(s, step.t, Receiver(s, step)))
  {
    hide ActiveApart, StartsApart, Issued, IsActive, Store.IsNext;
  }

  lemma StartedKept(s: State, step: Step, t: ThreadId, i: InstanceId)
    requires Inv(s) && Rows(s) && Enabled(s, step) && Starts(Apply(s, step), t, i)
    ensures i in Apply(s, step).active && Apply(s, step).active[i] == {}
  {
    hide Inv, Enabled, Apply, Assigns, Receiver, Given;
    WhoStarts(s, step, t, i);
    OpenedRow(s, step);
    if step != Open(t, i) {
      RowAfter(s, step, i);
      if c :| c in Apply(s, step).active[i] {
        GivenByOwnStart(s, step, c);
        if step.t != t { WorksAlone(s, step.t, t, i); }
        HandsAreDone(s, step, t);
      }
    }
  }

  lemma OpenedRow(s: State, step: Step)
    requires Enabled(s, step)
    ensures step.t in s.threads
    ensures step.Open? ==> step.i !in s.active && step.i in Apply(s, step).active && Apply(s, step).active[step.i] == {}
  {
    hide IsActive;
  }

  lemma HandsAreDone(s: State, step: Step, t: ThreadId)
    requires Enabled(s, step) && (step.Create? || step.Record?)
    ensures !Assigns(s, step)
  {
    hide IsActive;
  }

  lemma OneStart(s: State, step: Step, t: ThreadId, u: ThreadId, i: InstanceId)
    requires Rows(s) && Enabled(s, step) && Starts(Apply(s, step), t, i) && Starts(Apply(s, step), u, i)
    ensures t == u
  {
    hide Enabled, Apply;
    WhoStarts(s, step, t, i);
    WhoStarts(s, step, u, i);
    OpenedRow(s, step);
  }

  lemma StartOrEnd(s: State, step: Step, t: ThreadId, u: ThreadId, i: InstanceId)
    requires Rows(s) && Enabled(s, step) && Careful(s, step) && Starts(Apply(s, step), t, i)
    ensures !Ends(Apply(s, step), u, i)
  {
    hide Enabled, Apply;
    if Ends(Apply(s, step), u, i) {
      WhoStarts(s, step, t, i);
      WhoEnds(s, step, u, i);
      OpenedRow(s, step);
    }
  }

  lemma EndedKept(s: State, step: Step, t: ThreadId, i: InstanceId, c: ContainerId)
    requires Inv(s) && Rows(s) && Enabled(s, step) && Careful(s, step)
    requires var d := Apply(s, step); Ends(d, t, i) && i in d.active && c in d.active[i] && c in d.existing
    ensures c in Todo(Apply(s, step).threads[t].work)
  {
    hide Inv, Enabled, Apply, Assigns, Receiver, Given;
    WhoEnds(s, step, t, i);
    RowAfter(s, step, i);
    OldOrCreated(s, step, c);
    OpenedRow(s, step);
    if Assigns(s, step) && Receiver(s, step) == i && c in Given(s, step) {
      GivenByOwnStart(s, step, c);
      if step.t != t { WorksAlone(s, step.t, t, i); } else { AssignsIsOwn(s, step); }
    } else if !Ends(s, t, i) {
      StoppedSnapshot(s, step);
    }
  }

  lemma OldOrCreated(s: State, step: Step, c: ContainerId)
    requires Inv(s) && Enabled(s, step) && c in Apply(s, step).existing
    ensures c in s.existing || !IsActive(s.active, c)
  {
    hide Locking, ActiveApart, StartsApart, IsActive, Store.IsNext;
  }

  lemma StoppedSnapshot(s: State, step: Step)
    requires Enabled(s, step)
    ensures step.BeginStop? ==> step.i in s.active && Todo(Apply(s, step).threads[step.t].work) == s.active[step.i]
  {
    hide IsActive, Store.IsNext;
  }

  /** A thread that gives an instance containers deletes no row. */
  lemma AssignsIsOwn(s: State, step: Step)
    requires Enabled(s, step) && Assigns(s, step)
    ensures forall i :: !Ends(s, step.t, i) && !Ends(Apply(s, step), step.t, i)
  {
    hide IsActive, Store.IsNext;
  }

  lemma RowsKept(s: State, step: Step)
    requires Inv(s) && Rows(s) && Enabled(s, step) && Careful(s, step)
    ensures Rows(Apply(s, step))
  {
    hide Inv, Enabled, Apply, Careful, Starts, Ends;
    var d := Apply(s, step);
    forall t, i | Starts(d, t, i) ensures i in d.active && d.active[i] == {} { StartedKept(s, step, t, i); }
    forall t, u, i | Starts(d, t, i) && Starts(d, u, i) ensures t == u { OneStart(s, step, t, u, i); }
    forall t, u, i | Starts(d, t, i) ensures !Ends(d, u, i) { StartOrEnd(s, step, t, u, i); }
    forall t, i, c | Ends(d, t, i) && i in d.active && c in d.active[i] && c in d.existing
      ensures t in d.threads && c in Todo(d.threads[t].work)
    {
      EndedKept(s, step, t, i, c);
      EndsIsThread(d, t, i);
    }
  }

  lemma EndsIsThread(s: State, t: ThreadId, i: InstanceId)
    requires Ends(s, t, i)
    ensures t in s.threads
  {
  }

  // ------------------------------------------------- nothing is lost carefully

  lemma ReassignedIn(s: State, d: State, i: InstanceId, ids: set<ContainerId>, c: ContainerId)
    requires Inv(s) && Reassigned(s, d, i, ids)
    ensures IsActive(s.active, c) || c in s.retired ==> IsActive(d.active, c) || c in d.retired
  {
    hide Reassigned, IsActive, Locking, StartsApart, Issued;
    ReassignedApart(s, d, i, ids);
  }

  /** Rows that go take no container that exists with them. */
  lemma DroppedIn(s: State, step: Step, c: ContainerId)
    requires Rows(s) && Enabled(s, step) && Drops(step) && c in s.existing && IsActive(s.active, c)
    ensures IsActive(Apply(s, step).active, c)
  {
    hide IsActive, Store.IsNext;
    var d := Apply(s, step);
    assert step.DropInstance? ==> Ends(s, step.t, RowOf(s.threads[step.t].work));
    StillActive(s.active, d.active, c, if step.DropInstance? then RowOf(s.threads[step.t].work) else s.threads[step.t].work.i);
  }

  lemma StillActive(a: map<InstanceId, set<ContainerId>>, b: map<InstanceId, set<ContainerId>>, c: ContainerId, i: InstanceId)
    requires IsActive(a, c)
    requires forall j | j in a && j != i :: j in b && b[j] == a[j]
    requires i in a && c in a[i] ==> i in b && c in b[i]
    ensures IsActive(b, c)
  {
    var j :| j in a && c in a[j];
    assert j in b && c in b[j];
  }

  lemma RetiredOnlyIn(s: State, step: Step, c: ContainerId)
    requires Inv(s) && Enabled(s, step) && !Assigns(s, step) && !Drops(step) && c in Apply(s, step).existing
    ensures Apply(s, step).active == s.active
    ensures c in s.retired ==> c in Apply(s, step).retired
  {
    hide Locking, StartsApart, Issued, IsActive, Store.IsNext;
  }

  /** A pending container is recorded, gone or leaked before its thread lets go of it. */
  lemma StillPending(s: State, step: Step, c: ContainerId)
    requires Inv(s) && Enabled(s, step) && c in Apply(s, step).existing && IsPending(s.threads, c)
    ensures var d := Apply(s, step); IsPending(d.threads, c) || c in d.retired || c in d.leaked
  {
    hide ActiveApart, Issued, IsActive, Apply, Enabled, StartsApart, Pending;
    var t :| t in s.threads && c in Pending(s.threads[t].work);
    OneWorks(s, step);
    if t != step.t {
      assert c in Pending(Apply(s, step).threads[t].work);
    } else {
      PendingSettled(s, step, c);
    }
  }

  lemma PendingSettled(s: State, step: Step, c: ContainerId)
    requires Locking(s) && Enabled(s, step) && c in Apply(s, step).existing && c in Pending(s.threads[step.t].work)
    ensures var d := Apply(s, step); c in Pending(d.threads[step.t].work) || c in d.retired || c in d.leaked
  {
    hide IsActive, Store.IsNext;
  }

  lemma DropsKeepRetired(s: State, step: Step)
    requires Enabled(s, step) && Drops(step)
    ensures Apply(s, step).retired == s.retired && Apply(s, step).existing == s.existing
  {
  }

  lemma LeaksStay(s: State, step: Step)
    requires Enabled(s, step)
    ensures s.leaked <= Apply(s, step).leaked
    ensures forall c | c in Apply(s, step).existing && c !in s.existing :: IsPending(Apply(s, step).threads, c)
    ensures forall c | c in Apply(s, step).leaked && c !in s.leaked :: (step.GiveUp? || step.Crash?) && c in Pending(s.threads[step.t].work)
  {
    hide IsActive, Store.IsNext;
    if step.Create? { assert s.next in Pending(Apply(s, step).threads[step.t].work); }
  }

  lemma AccountedKept(s: State, step: Step)
    requires Inv(s) && Rows(s) && Accounted(s) && Enabled(s, step)
    ensures Accounted(Apply(s, step))
  {
    hide Inv, Rows, Enabled, Apply, IsActive, IsPending, Assigns, Given, Receiver;
    var d := Apply(s, step);
    LeaksStay(s, step);
    forall c | c in d.existing
      ensures !Lost(d, c)
    {
      if c in s.existing {
        if IsPending(s.threads, c) { StillPending(s, step, c); }
        if Assigns(s, step) {
          AssignsIsReassigned(s, step);
          ReassignedIn(s, d, Receiver(s, step), Given(s, step), c);
        } else if Drops(step) {
          DropsKeepRetired(s, step);
          if IsActive(s.active, c) { DroppedIn(s, step, c); }
        } else {
          RetiredOnlyIn(s, step, c);
        }
      }
    }
  }

  // ---------------------------------------------------------------- all runs

  ghost predicate Run(states: seq<State>, steps: seq<Step>) {
    && |states| == |steps| + 1
    && (forall k | 0 <= k < |steps| :: Enabled(states[k], steps[k]) && states[k + 1] == Apply(states[k], steps[k]))
  }

  lemma {:induction false} RunInv(states: seq<State>, steps: seq<Step>, k: nat)
    requires Run(states, steps) && k < |states| && Init(states[0])
    ensures Inv(states[k])
  {
    hide Inv, Enabled, Apply;
    if k == 0 {
      InitInv(states[0]);
    } else {
      RunInv(states, steps, k - 1);
      InvKept(states[k - 1], steps[k - 1]);
    }
  }

  /** No container is both owned and retired, and none is owned twice. */
  lemma NeverOwnedAndRetired(states: seq<State>, steps: seq<Step>, k: nat, i: InstanceId, c: ContainerId)
    requires Run(states, steps) && k < |states| && Init(states[0])
    requires i in states[k].active && c in states[k].active[i]
    ensures c !in states[k].retired
    ensures forall j | j in states[k].active && c in states[k].active[j] :: j == i
  {
    hide Enabled, Apply;
    RunInv(states, steps, k);
  }

  lemma Single(ids: set<ContainerId>, c: ContainerId)
    requires |ids| <= 1 && c in ids
    ensures ids == {c}
  {
    assert |ids - {c}| == 0;
  }

  /** Nobody removes a container that another thread is still starting: neither a stop beside
      it nor a sweep, which runs when nothing else does. */
  lemma LiveStartsAreSafe(states: seq<State>, steps: seq<Step>, k: nat, u: ThreadId)
    requires Run(states, steps) && k < |steps| && Init(states[0])
    requires steps[k].Remove? || steps[k].Forget?
    requires u in states[k].threads && u != steps[k].t
    ensures steps[k].c !in Held(states[k].threads[u].work)
  {
    hide Inv, Apply, IsActive;
    var s := states[k];
    RunInv(states, steps, k);
    if steps[k].c in Held(s.threads[u].work) { HeldBefore(s, u, steps[k].t, steps[k].c); }
  }

  /** A sweep of retired containers runs under the exclusive lock, when no start is under way. */
  lemma SweepsRunAlone(states: seq<State>, steps: seq<Step>, k: nat, t: ThreadId, u: ThreadId)
    requires Run(states, steps) && k < |states| && Init(states[0])
    requires t in states[k].threads && states[k].threads[t].work.Sweeping? && u in states[k].threads && u != t
    ensures states[k].threads[u].work.Resting?
  {
    hide Enabled, Apply, IsActive;
    RunInv(states, steps, k);
  }

  /** What is leaked was created, and then lost by its own thread: it died, or could neither
      record nor remove it. */
  lemma {:induction false} LeaksAreGivenUp(states: seq<State>, steps: seq<Step>, k: nat, c: ContainerId)
    requires Run(states, steps) && k < |states| && Init(states[0]) && c in states[k].leaked
    ensures exists j :: 0 <= j < k && LosesPending(states[j], steps[j], c)
  {
    hide Enabled, Apply;
    if k > 0 {
      LeaksStay(states[k - 1], steps[k - 1]);
      if c in states[k - 1].leaked {
        LeaksAreGivenUp(states, steps, k - 1, c);
      } else {
        OneWorks(states[k - 1], steps[k - 1]);
        assert LosesPending(states[k - 1], steps[k - 1], c);
      }
    }
  }

  ghost predicate LosesPending(s: State, step: Step, c: ContainerId) {
    (step.GiveUp? || step.Crash?) && step.t in s.threads && c in Pending(s.threads[step.t].work)
  }

  ghost predicate AllCareful(states: seq<State>, steps: seq<Step>, k: nat)
    requires |states| == |steps| + 1 && k <= |steps|
  {
    forall j | 0 <= j < k :: Careful(states[j], steps[j])
  }

  /** As long as every step is careful nothing is lost. */
  lemma {:induction false} NothingLost(states: seq<State>, steps: seq<Step>, k: nat)
    requires Run(states, steps) && k < |states| && Init(states[0]) && AllCareful(states, steps, k)
    ensures Inv(states[k]) && Rows(states[k]) && Accounted(states[k])
  {
    hide Inv, Rows, Accounted, Enabled, Apply, Careful;
    if k == 0 {
      InitInv(states[0]);
      InitRows(states[0]);
    } else {
      NothingLost(states, steps, k - 1);
      InvKept(states[k - 1], steps[k - 1]);
      RowsKept(states[k - 1], steps[k - 1]);
      AccountedKept(states[k - 1], steps[k - 1]);
    }
  }

  lemma InitRows(s: State)
    requires Init(s)
    ensures Rows(s) && Accounted(s)
  {
  }

  /** Every existing container is owned or retired, but for one per thread at work: the one
      between its creation and its record.  The only others are leaks. */
  lemma AtMostOneUnrecorded(states: seq<State>, steps: seq<Step>, k: nat, c: ContainerId)
    requires Run(states, steps) && k < |states| && Init(states[0]) && AllCareful(states, steps, k)
    requires c in states[k].existing && c !in states[k].leaked
    requires !IsActive(states[k].active, c) && c !in states[k].retired
    ensures exists t :: t in states[k].threads && !states[k].threads[t].lock.Unlocked? && Pending(states[k].threads[t].work) == {c}
  {
    hide Enabled, Apply, IsActive;
    var s := states[k];
    NothingLost(states, steps, k);
    assert !Lost(s, c);
    var t :| t in s.threads && c in Pending(s.threads[t].work);
    Single(Pending(s.threads[t].work), c);
  }

  // ------------------------------------------------- what carelessness can lose

  /** Nothing fails, nobody dies. */
  predicate Faultless(step: Step) {
    !step.Clean? && !step.GiveUp? && !step.RetireAfterAll? && !step.Crash?
  }

  /** A run from `s`, with no fault in it. */
  ghost predicate FaultlessRun(s: State, states: seq<State>, steps: seq<Step>) {
    Run(states, steps) && states[0] == s && forall k | 0 <= k < |steps| :: Faultless(steps[k])
  }

  lemma RunThenRun(s: State, states: seq<State>, steps: seq<Step>, more: seq<State>, rest: seq<Step>)
    requires FaultlessRun(s, states, steps) && FaultlessRun(states[|steps|], more, rest)
    ensures FaultlessRun(s, states + more[1..], steps + rest)
    ensures (states + more[1..])[|steps + rest|] == more[|rest|]
  {
    hide Enabled, Apply, Faultless;
    var all, moves := states + more[1..], steps + rest;
    forall k | 0 <= k < |moves|
      ensures Enabled(all[k], moves[k]) && all[k + 1] == Apply(all[k], moves[k])
    {
      if k >= |steps| {
        assert all[k] == more[k - |steps|];
        assert moves[k] == rest[k - |steps|];
      }
    }
  }

  /** Thread `t` starts instance `i` while `u`, with nothing left on its list, has yet to delete
      that row. */
  ghost predicate AboutToLose(s: State, t: ThreadId, u: ThreadId, i: InstanceId) {
    && Starts(s, t, i) && Ends(s, u, i) && Working(s, t) && Working(s, u)
    && i in s.active && s.active[i] == {}
    && Todo(s.threads[u].work) == {} && Pending(s.threads[u].work) == {}
  }

  lemma RecordsPending(s: State, t: ThreadId, u: ThreadId, i: InstanceId)
    requires AboutToLose(s, t, u, i)
    ensures
      var d := Apply(s, Record(t));
      && AboutToLose(d, t, u, i) && Mine(d.threads[t].work) == Held(s.threads[t].work) && Pending(d.threads[t].work) == {}
      && d.existing == s.existing && d.leaked == s.leaked
  {
    hide IsActive, Store.IsNext;
  }

  lemma CreatesOne(s: State, t: ThreadId, u: ThreadId, i: InstanceId)
    requires Inv(s) && AboutToLose(s, t, u, i) && Pending(s.threads[t].work) == {}
    ensures
      var d := Apply(s, Create(t));
      AboutToLose(d, t, u, i) && s.next in Held(d.threads[t].work) && s.next in d.existing && s.next !in d.leaked
  {
    hide IsActive, Store.IsNext, Locking, ActiveApart, StartsApart;
  }

  /** The containers the row has been given are nobody else's. */
  ghost predicate OnlyOwnedBy(s: State, i: InstanceId, u: ThreadId, c: ContainerId) {
    && Ends(s, u, i) && Working(s, u) && Todo(s.threads[u].work) == {} && Pending(s.threads[u].work) == {}
    && i in s.active && c in s.active[i] && (forall j | j in s.active && c in s.active[j] :: j == i)
    && c in s.existing && c !in s.retired && c !in s.leaked && !IsPending(s.threads, c)
  }

  lemma HandsOver(s: State, t: ThreadId, u: ThreadId, i: InstanceId, c: ContainerId)
    requires Inv(s) && AboutToLose(s, t, u, i) && Pending(s.threads[t].work) == {}
    requires c in Mine(s.threads[t].work) && c in s.existing && c !in s.leaked
    ensures Enabled(s, Hand(t)) && OnlyOwnedBy(Apply(s, Hand(t)), i, u, c)
  {
    hide Locking, Issued, Enabled, Apply, Mine, Pending;
    HandedRows(s, t, u, i);
    OneWorks(s, Hand(t));
    assert c in Held(s.threads[t].work);
    assert c in s.retired;
    var d := Apply(s, Hand(t));
    forall v | v in d.threads ensures c !in Pending(d.threads[v].work) {
      assert v != t ==> c !in Held(s.threads[v].work);
    }
  }

  lemma HandedRows(s: State, t: ThreadId, u: ThreadId, i: InstanceId)
    requires AboutToLose(s, t, u, i) && Pending(s.threads[t].work) == {}
    ensures Enabled(s, Hand(t)) && t != u
    ensures
      var d, mine := Apply(s, Hand(t)), Mine(s.threads[t].work);
      && d.active == s.active[i := mine] && d.retired == s.retired - mine && d.existing == s.existing && d.leaked == s.leaked
      && t in d.threads && Pending(d.threads[t].work) == {}
  {
    hide Store.IsNext, IsActive;
    var mine := Mine(s.threads[t].work);
    assert {} + mine == mine;
    assert (s.retired - mine) + ({} - mine) == s.retired - mine;
  }

  lemma DeletesOwner(s: State, i: InstanceId, u: ThreadId, c: ContainerId)
    requires OnlyOwnedBy(s, i, u, c)
    ensures Enabled(s, DropInstance(u)) && Lost(Apply(s, DropInstance(u)), c)
  {
    hide Store.IsNext;
    var d := Apply(s, DropInstance(u));
    forall v | v in d.threads ensures c !in Pending(d.threads[v].work) {
      assert v != u ==> c !in Pending(s.threads[v].work);
    }
  }

  lemma StartThenDelete(s: State, t: ThreadId, u: ThreadId, i: InstanceId)
    returns (states: seq<State>, steps: seq<Step>, c: ContainerId)
    requires Inv(s) && AboutToLose(s, t, u, i)
    ensures FaultlessRun(s, states, steps) && Lost(states[|steps|], c)
  {
    hide Inv, AboutToLose, Apply, Lost, OnlyOwnedBy, Mine, Pending, Held;
    steps := [Record(t), Create(t), Record(t), Hand(t), DropInstance(u)];
    WhileStarting(s, t, u, i);
    RecordsPending(s, t, u, i);
    var s1 := Apply(s, Record(t));
    InvKept(s, Record(t));
    WhileStarting(s1, t, u, i);
    CreatesOne(s1, t, u, i);
    c := s1.next;
    var s2 := Apply(s1, Create(t));
    InvKept(s1, Create(t));
    WhileStarting(s2, t, u, i);
    RecordsPending(s2, t, u, i);
    var s3 := Apply(s2, Record(t));
    InvKept(s2, Record(t));
    HandsOver(s3, t, u, i, c);
    var s4 := Apply(s3, Hand(t));
    DeletesOwner(s4, i, u, c);
    states := [s, s1, s2, s3, s4, Apply(s4, DropInstance(u))];
  }

  lemma WhileStarting(s: State, t: ThreadId, u: ThreadId, i: InstanceId)
    requires AboutToLose(s, t, u, i)
    ensures t in s.threads && Enabled(s, Record(t)) && (Pending(s.threads[t].work) == {} ==> Enabled(s, Create(t)))
  {
  }

  /** A thread that means to delete row `i` can first work off its list. */
  lemma {:induction false} WorksOff(s: State, t: ThreadId, u: ThreadId, i: InstanceId)
    returns (states: seq<State>, steps: seq<Step>)
    requires Inv(s) && Starts(s, t, i) && Ends(s, u, i) && i in s.active && s.active[i] == {}
    ensures FaultlessRun(s, states, steps) && Inv(states[|steps|]) && AboutToLose(states[|steps|], t, u, i)
    decreases |Todo(s.threads[u].work)| + |Pending(s.threads[u].work)|
  {
    hide Inv;
    AtWork(s, t, u, i);
    if c :| c in Todo(s.threads[u].work) {
      var first, moves := WorksOffOne(s, t, u, i, c);
      var more, rest := WorksOff(first[|moves|], t, u, i);
      RunThenRun(s, first, moves, more, rest);
      states, steps := first + more[1..], moves + rest;
    } else if c :| c in Pending(s.threads[u].work) {
      var first, moves := SettlesPending(s, t, u, i, c);
      var more, rest := WorksOff(first[|moves|], t, u, i);
      RunThenRun(s, first, moves, more, rest);
      states, steps := first + more[1..], moves + rest;
    } else {
      states, steps := [s], [];
    }
  }

  lemma AtWork(s: State, t: ThreadId, u: ThreadId, i: InstanceId)
    requires Inv(s) && Starts(s, t, i) && Ends(s, u, i)
    ensures t != u && Working(s, t) && Working(s, u)
  {
    hide ActiveApart, StartsApart, Issued;
  }

  lemma WorksOffOne(s: State, t: ThreadId, u: ThreadId, i: InstanceId, c: ContainerId)
    returns (states: seq<State>, steps: seq<Step>)
    requires Inv(s) && Starts(s, t, i) && Ends(s, u, i) && i in s.active && s.active[i] == {}
    requires c in Todo(s.threads[u].work)
    ensures FaultlessRun(s, states, steps)
    ensures
      var d := states[|steps|];
      && Inv(d) && Starts(d, t, i) && Ends(d, u, i) && i in d.active && d.active[i] == {}
      && Todo(d.threads[u].work) == Todo(s.threads[u].work) - {c} && Pending(d.threads[u].work) == Pending(s.threads[u].work)
  {
    hide Inv, Store.IsNext;
    AtWork(s, t, u, i);
    steps := [Remove(u, c), DropRow(u, c), Forget(u, c)];
    var s1 := Apply(s, Remove(u, c));
    InvKept(s, Remove(u, c));
    var s2 := Apply(s1, DropRow(u, c));
    InvKept(s1, DropRow(u, c));
    var s3 := Apply(s2, Forget(u, c));
    InvKept(s2, Forget(u, c));
    states := [s, s1, s2, s3];
  }

  lemma SettlesPending(s: State, t: ThreadId, u: ThreadId, i: InstanceId, c: ContainerId)
    returns (states: seq<State>, steps: seq<Step>)
    requires Inv(s) && Starts(s, t, i) && Ends(s, u, i) && i in s.active && s.active[i] == {}
    requires Todo(s.threads[u].work) == {} && c in Pending(s.threads[u].work)
    ensures FaultlessRun(s, states, steps)
    ensures
      var d := states[|steps|];
      && Inv(d) && Starts(d, t, i) && Ends(d, u, i) && i in d.active && d.active[i] == {}
      && Todo(d.threads[u].work) == {} && Pending(d.threads[u].work) == {}
  {
    hide Inv, Store.IsNext;
    AtWork(s, t, u, i);
    OnePending(s, u);
    Single(Pending(s.threads[u].work), c);
    steps := [Remove(u, c), Settle(u)];
    var s1 := Apply(s, Remove(u, c));
    InvKept(s, Remove(u, c));
    var s2 := Apply(s1, Settle(u));
    InvKept(s1, Settle(u));
    states := [s, s1, s2];
  }

  /** Whatever has happened so far, a step that is not careful can be followed, without any
      fault, by the loss of a container: so careful runs are the ones that are safe. */
  lemma CarelessLoses(states: seq<State>, steps: seq<Step>, k: nat)
    returns (more: seq<State>, rest: seq<Step>, c: ContainerId)
    requires Run(states, steps) && k < |steps| && Init(states[0])
    requires AllCareful(states, steps, k) && !Careful(states[k], steps[k])
    ensures FaultlessRun(states[k + 1], more, rest) && Lost(more[|rest|], c)
  {
    hide Inv, Rows, Enabled, Apply, Careful, AboutToLose, Lost, Starts, Ends;
    var s, step := states[k], steps[k];
    NothingLost(states, steps, k);
    InvKept(s, step);
    var t, u := Meeting(s, step);
    var first, moves := WorksOff(states[k + 1], t, u, step.i);
    var second, others;
    second, others, c := StartThenDelete(first[|moves|], t, u, step.i);
    RunThenRun(states[k + 1], first, moves, second, others);
    more, rest := first + second[1..], moves + others;
  }

  /** Who starts and who deletes the row after a step that is not careful. */
  lemma Meeting(s: State, step: Step) returns (t: ThreadId, u: ThreadId)
    requires Rows(s) && Enabled(s, step) && !Careful(s, step)
    ensures step.BeginStop? || step.Open?
    ensures var d := Apply(s, step); Starts(d, t, step.i) && Ends(d, u, step.i) && step.i in d.active && d.active[step.i] == {}
  {
    hide Store.IsNext, IsActive;
    if step.BeginStop? {
      u := step.t;
      t :| Starts(s, t, step.i);
    } else {
      t := step.t;
      u :| Ends(s, u, step.i);
    }
  }

  function Both(first: Thread, second: Thread, existing: set<ContainerId>, active: map<InstanceId, set<ContainerId>>, retired: set<ContainerId>): State {
    State(map[1 := first, 2 := second], existing, active, retired, |existing|, {})
  }

  const STOPPING := Thread(Shared, Stopping(1, {}))

  /** The shortest case: a stop looks at an instance that is being started, sees nothing to
      stop, and deletes its row when the start has just returned. */
  lemma StopBesideStartLoses() returns (states: seq<State>, steps: seq<Step>)
    ensures Run(states, steps) && Init(states[0]) && Lost(states[|steps|], 0)
    ensures steps == [Acquire(1, Shared), Acquire(2, Shared), Open(1, 1), BeginStop(2, 1), Create(1), Record(1), Hand(1), DropInstance(2)]
  {
    hide Enabled, Apply;
    var idle, busy := Thread(Unlocked, Resting), Thread(Shared, Resting);
    states := [
      Both(idle, idle, {}, map[], {}),
      Both(busy, idle, {}, map[], {}),
      Both(busy, busy, {}, map[], {}),
      Both(Thread(Shared, Starting(New(1), {}, {})), busy, {}, map[1 := {}], {}),
      Both(Thread(Shared, Starting(New(1), {}, {})), STOPPING, {}, map[1 := {}], {}),
      Both(Thread(Shared, Starting(New(1), {}, {0})), STOPPING, {0}, map[1 := {}], {}),
      Both(Thread(Shared, Starting(New(1), {0}, {})), STOPPING, {0}, map[1 := {}], {0}),
      Both(busy, STOPPING, {0}, map[1 := {0}], {}),
      Both(busy, busy, {0}, map[], {})];
    steps := [Acquire(1, Shared), Acquire(2, Shared), Open(1, 1), BeginStop(2, 1), Create(1), Record(1), Hand(1), DropInstance(2)];
    StopMeetsStart();
    StartGoesOn();
    StopDeletesRow();
  }

  /** The two get the shared lock, and the stop finds the row the start has just made. */
  lemma StopMeetsStart()
    ensures
      var idle, busy := Thread(Unlocked, Resting), Thread(Shared, Resting);
      var s0, s1, s2 := Both(idle, idle, {}, map[], {}), Both(busy, idle, {}, map[], {}), Both(busy, busy, {}, map[], {});
      var s3 := Both(Thread(Shared, Starting(New(1), {}, {})), busy, {}, map[1 := {}], {});
      var s4 := Both(Thread(Shared, Starting(New(1), {}, {})), STOPPING, {}, map[1 := {}], {});
      && Enabled(s0, Acquire(1, Shared)) && Apply(s0, Acquire(1, Shared)) == s1
      && Enabled(s1, Acquire(2, Shared)) && Apply(s1, Acquire(2, Shared)) == s2
      && Enabled(s2, Open(1, 1)) && Apply(s2, Open(1, 1)) == s3
      && Enabled(s3, BeginStop(2, 1)) && Apply(s3, BeginStop(2, 1)) == s4
  {
  }

  /** The start makes a container. */
  lemma StartGoesOn()
    ensures
      var s4 := Both(Thread(Shared, Starting(New(1), {}, {})), STOPPING, {}, map[1 := {}], {});
      var s5 := Both(Thread(Shared, Starting(New(1), {}, {0})), STOPPING, {0}, map[1 := {}], {});
      var s6 := Both(Thread(Shared, Starting(New(1), {0}, {})), STOPPING, {0}, map[1 := {}], {0});
      && Enabled(s4, Create(1)) && Apply(s4, Create(1)) == s5
      && Enabled(s5, Record(1)) && Apply(s5, Record(1)) == s6
  {
  }

  /** It ends well, and the stop deletes the row. */
  lemma StopDeletesRow()
    ensures
      var busy := Thread(Shared, Resting);
      var s6 := Both(Thread(Shared, Starting(New(1), {0}, {})), STOPPING, {0}, map[1 := {}], {0});
      var s7 := Both(busy, STOPPING, {0}, map[1 := {0}], {});
      && Enabled(s6, Hand(1)) && Apply(s6, Hand(1)) == s7
      && Enabled(s7, DropInstance(2)) && Apply(s7, DropInstance(2)) == Both(busy, busy, {0}, map[], {})
  {
  }
}
