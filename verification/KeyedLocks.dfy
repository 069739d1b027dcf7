/**
 Maps of reference-counted mutexes: one for builds, keyed by schema, format, challenge and
 seed (docker.go), and one for port selection, keyed by path (operation_lock.go).  An entry is
 made by its first user and deleted by its last, so one key may see many lock objects.
 */
module KeyedLocks {

  type ThreadId = nat
  type LockId = nat
  type Key = string

  /** `Counted` threads are in the reference count and wait; `Leaving` ones have unlocked but
      are still counted. */
  datatype Use =
    | Out
    | Counted(key: Key, lock: LockId)
    | Holding(key: Key, lock: LockId)
    | Leaving(key: Key, lock: LockId)

  /** `refs` and `owner` belong to the lock objects, which outlive their map entry. */
  datatype State = State(
    uses: map<ThreadId, Use>,
    entries: map<Key, LockId>,
    refs: map<LockId, int>,
    owner: map<LockId, Option<ThreadId>>,
    next: LockId)

  datatype Option<+T> = None | Some(value: T)

  datatype Step = Count(t: ThreadId, key: Key) | Lock(t: ThreadId) | Unlock(t: ThreadId) | Discount(t: ThreadId)

  ghost predicate Enabled(s: State, step: Step) {
    match step
    case Count(t, _) => t in s.uses && s.uses[t].Out?
    case Lock(t) => t in s.uses && s.uses[t].Counted? && s.uses[t].lock in s.owner && s.owner[s.uses[t].lock] == None
    case Unlock(t) => t in s.uses && s.uses[t].Holding? && s.uses[t].lock in s.owner
    case Discount(t) => t in s.uses && s.uses[t].Leaving? && s.uses[t].lock in s.refs
  }

  ghost function Apply(s: State, step: Step): State
    requires Enabled(s, step)
  {
    match step
    case Count(t, key) =>
      var absent := key !in s.entries;
      var id := if absent then s.next else s.entries[key];
      var count := if absent then 0 else if id in s.refs then s.refs[id] else 0;
      State(s.uses[t := Counted(key, id)], s.entries[key := id], s.refs[id := count + 1],
            if absent then s.owner[id := None] else s.owner, if absent then s.next + 1 else s.next)
    case Lock(t) =>
      var u := s.uses[t];
      s.(uses := s.uses[t := Holding(u.key, u.lock)], owner := s.owner[u.lock := Some(t)])
    case Unlock(t) =>
      var u := s.uses[t];
      s.(uses := s.uses[t := Leaving(u.key, u.lock)], owner := s.owner[u.lock := None])
    case Discount(t) =>
      var u := s.uses[t];
      var count := s.refs[u.lock] - 1;
      s.(uses := s.uses[t := Out], refs := s.refs[u.lock := count],
         entries := if count == 0 then s.entries - {u.key} else s.entries)
  }

  ghost function Users(s: State, key: Key): (users: set<ThreadId>)
    ensures forall t :: t in users <==> t in s.uses && !s.uses[t].Out? && s.uses[t].key == key
  {
    set t | t in s.uses && !s.uses[t].Out? && s.uses[t].key == key
  }

  // -------------------------------------------------------------- invariant

  /** All users of a key share the lock object of its entry. */
  ghost predicate Shared(s: State) {
    forall t | t in s.uses && !s.uses[t].Out? :: s.uses[t].key in s.entries && s.entries[s.uses[t].key] == s.uses[t].lock
  }

  /** An entry exists exactly while it has users, and its count is their number. */
  ghost predicate CountsUsers(s: State) {
    forall key | key in s.entries ::
      && s.entries[key] in s.refs && s.entries[key] in s.owner && s.entries[key] < s.next
      && s.refs[s.entries[key]] == |Users(s, key)| && |Users(s, key)| > 0
  }

  /** No lock object serves two keys. */
  ghost predicate Apart(s: State) {
    forall a, b | a in s.entries && b in s.entries && s.entries[a] == s.entries[b] :: a == b
  }

  ghost predicate Owners(s: State) {
    forall t, id | id in s.owner :: s.owner[id] == Some(t) <==> t in s.uses && s.uses[t].Holding? && s.uses[t].lock == id
  }

  ghost predicate Issued(s: State) {
    && (forall id | id in s.owner :: id < s.next)
    && (forall t | t in s.uses && !s.uses[t].Out? :: s.uses[t].lock < s.next)
  }

  ghost predicate Inv(s: State) {
    Shared(s) && CountsUsers(s) && Apart(s) && Owners(s) && Issued(s)
  }

  ghost predicate Init(s: State) {
    (forall t | t in s.uses :: s.uses[t].Out?) && s.entries == map[] && s.owner == map[]
  }

  lemma InitInv(s: State)
    requires Init(s)
    ensures Inv(s)
  {
  }

  lemma UsersMoved(s: State, d: State, t: ThreadId, key: Key)
    requires t in s.uses && t in d.uses && d.uses == s.uses[t := d.uses[t]]
    ensures
      var was, now := !s.uses[t].Out? && s.uses[t].key == key, !d.uses[t].Out? && d.uses[t].key == key;
      |Users(d, key)| == |Users(s, key)| - (if was then 1 else 0) + (if now then 1 else 0)
  {
    assert Users(d, key) - {t} == Users(s, key) - {t};
    Removed(Users(d, key), t);
    Removed(Users(s, key), t);
  }

  lemma Removed(a: set<ThreadId>, t: ThreadId)
    ensures |a - {t}| == |a| - (if t in a then 1 else 0)
  {
    if t in a { assert a == (a - {t}) + {t}; } else { assert a - {t} == a; }
  }

  lemma CountShares(s: State, t: ThreadId, key: Key)
    requires Inv(s) && Enabled(s, Count(t, key))
    ensures var d := Apply(s, Count(t, key)); Shared(d) && Apart(d) && Issued(d)
  {
    hide Users, Owners;
  }

  lemma CountOwners(s: State, t: ThreadId, key: Key)
    requires Inv(s) && Enabled(s, Count(t, key))
    ensures Owners(Apply(s, Count(t, key)))
  {
    hide Users, CountsUsers, Apart;
  }

  lemma CountCounts(s: State, t: ThreadId, key: Key)
    requires Inv(s) && Enabled(s, Count(t, key))
    ensures CountsUsers(Apply(s, Count(t, key)))
  {
    hide Users, Owners, Issued;
    var d := Apply(s, Count(t, key));
    forall k | k in d.entries
      ensures |Users(d, k)| == (if k in s.entries then |Users(s, k)| else 0) + (if k == key then 1 else 0)
    {
      UsersMoved(s, d, t, k);
      if k !in s.entries { assert Users(s, k) == {}; }
    }
  }

  lemma CountKept(s: State, t: ThreadId, key: Key)
    requires Inv(s) && Enabled(s, Count(t, key))
    ensures Inv(Apply(s, Count(t, key)))
  {
    hide Apply, Enabled, Shared, CountsUsers, Apart, Owners, Issued;
    CountShares(s, t, key);
    CountOwners(s, t, key);
    CountCounts(s, t, key);
  }

  lemma LockKept(s: State, t: ThreadId)
    requires Inv(s) && Enabled(s, Lock(t))
    ensures Inv(Apply(s, Lock(t)))
  {
    var d := Apply(s, Lock(t));
    forall k | k in d.entries ensures |Users(d, k)| == |Users(s, k)| { UsersMoved(s, d, t, k); }
  }

  lemma UnlockKept(s: State, t: ThreadId)
    requires Inv(s) && Enabled(s, Unlock(t))
    ensures Inv(Apply(s, Unlock(t)))
  {
    var d := Apply(s, Unlock(t));
    forall k | k in d.entries ensures |Users(d, k)| == |Users(s, k)| { UsersMoved(s, d, t, k); }
  }

  lemma DiscountKept(s: State, t: ThreadId)
    requires Inv(s) && Enabled(s, Discount(t))
    ensures Inv(Apply(s, Discount(t)))
  {
    var d, key := Apply(s, Discount(t)), s.uses[t].key;
    assert d.uses == s.uses[t := Out];
    forall k | k in s.entries
      ensures |Users(d, k)| == |Users(s, k)| - (if k == key then 1 else 0)
    {
      UsersMoved(s, d, t, k);
    }
    forall u | u in d.uses && !d.uses[u].Out? && d.uses[u].key == key
      ensures key in d.entries
    {
      assert u in Users(d, key);
    }
  }

  lemma InvKept(s: State, step: Step)
    requires Inv(s) && Enabled(s, step)
    ensures Inv(Apply(s, step))
  {
    hide Inv;
    match step {
      case Count(t, key) => CountKept(s, t, key);
      case Lock(t) => LockKept(s, t);
      case Unlock(t) => UnlockKept(s, t);
      case Discount(t) => DiscountKept(s, t);
    }
  }

  // ---------------------------------------------------------------- all runs

  ghost predicate Run(states: seq<State>, steps: seq<Step>) {
    && |states| == |steps| + 1
    && (forall k | 0 <= k < |steps| :: Enabled(states[k], steps[k]) && states[k + 1] == Apply(states[k], steps[k]))
  }

  lemma {:induction false} RunInv(states: seq<State>, steps: seq<Step>, k: nat)
    requires Run(states, steps) && k < |states| && Init(states[0])
    ensures Inv(states[k])
  {
    hide Inv, Enabled, Apply;
    if k == 0 {
      InitInv(states[0]);
    } else {
      RunInv(states, steps, k - 1);
      InvKept(states[k - 1], steps[k - 1]);
    }
  }

  /** One holder per key, although the lock object behind a key comes and goes. */
  lemma OneHolderPerKey(states: seq<State>, steps: seq<Step>, k: nat, t: ThreadId, u: ThreadId)
    requires Run(states, steps) && k < |states| && Init(states[0])
    requires t in states[k].uses && states[k].uses[t].Holding? && u in states[k].uses && states[k].uses[u].Holding?
    requires states[k].uses[t].key == states[k].uses[u].key
    ensures t == u
  {
    hide Enabled, Apply;
    RunInv(states, steps, k);
    var id := states[k].uses[t].lock;
    assert states[k].owner[id] == Some(t);
  }

  /** Waiting and holding threads of one key use the same object, and the map has an entry
      exactly for keys in use. */
  lemma EntriesAreUsers(states: seq<State>, steps: seq<Step>, k: nat, key: Key)
    requires Run(states, steps) && k < |states| && Init(states[0])
    ensures key in states[k].entries <==> Users(states[k], key) != {}
    ensures key in states[k].entries ==>
      && states[k].entries[key] in states[k].refs && states[k].refs[states[k].entries[key]] == |Users(states[k], key)|
      && forall t | t in Users(states[k], key) :: states[k].uses[t].lock == states[k].entries[key]
  {
    hide Enabled, Apply;
    RunInv(states, steps, k);
    if Users(states[k], key) != {} {
      var t :| t in Users(states[k], key);
    }
  }

  /** A free lock is there to be taken: users of a key never wait for an object that nobody
      holds and nobody will release. */
  lemma WaitersCanProceed(s: State, t: ThreadId)
    requires Inv(s) && t in s.uses && s.uses[t].Counted?
    ensures Enabled(s, Lock(t)) || exists u :: u in s.uses && s.uses[u].Holding? && s.uses[u].key == s.uses[t].key && Enabled(s, Unlock(u))
  {
    var id := s.uses[t].lock;
    if s.owner[id].Some? {
      var u := s.owner[id].value;
      assert s.owner[id] == Some(u);
      assert s.entries[s.uses[u].key] == s.entries[s.uses[t].key];
    }
  }
}
