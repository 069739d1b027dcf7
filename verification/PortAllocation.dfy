/**
 Concurrent starts choosing host ports: the port lock is held from the first choice until the
 ports are on record or the start fails (docker.go, operation_lock.go).  A failed start gives
 the lock back first; its caller removes the containers afterwards.
 */
module PortAllocation {
  import opened Store

  type Name = string
  type Port = nat

  /** The start that has the lock: what it has chosen, and for which names its containers run. */
  datatype Start = Start(inst: InstanceId, chosen: map<Name, Port>, bound: set<Name>)

  /** A port that a container of a failed start still holds. */
  datatype Stray = Stray(inst: InstanceId, port: Port)

  /** `open` are the ports held by containers of instances, `recorded` is the `portAssignments`
      table.  A port range is set, so Docker picks no port itself. */
  datatype State = State(current: Option<Start>, stray: set<Stray>, open: set<Port>, recorded: map<InstanceId, map<Name, Port>>)

  datatype Step =
    | Open(i: InstanceId)
    | Pause(port: Port)
    | Take(i: InstanceId)
    | Keep(n: Name)
    | Select(n: Name, port: Port)
    | Bind
    | Record
    | GiveUp
    | Clear(x: Stray)
    | Resume(i: InstanceId, n: Name)
    | Release(i: InstanceId)

  ghost predicate HasRow(s: State, i: InstanceId, n: Name, port: Port) {
    i in s.recorded && n in s.recorded[i] && s.recorded[i][n] == port
  }

  ghost predicate IsRecorded(s: State, port: Port) {
    exists i, n :: HasRow(s, i, n, port)
  }

  /** The name has a port to keep. */
  ghost predicate IsOld(s: State, i: InstanceId, n: Name) {
    i in s.recorded && n in s.recorded[i]
  }

  datatype Holder = Owner | Current(n: Name) | Leftover(x: Stray)

  ghost predicate HeldBy(s: State, h: Holder, port: Port) {
    match h
    case Owner => port in s.open
    case Current(n) => s.current.Some? && n in s.current.value.bound && n in s.current.value.chosen && s.current.value.chosen[n] == port
    case Leftover(x) => x in s.stray && x.port == port
  }

  ghost predicate Held(s: State, port: Port) {
    exists h :: HeldBy(s, h, port)
  }

  ghost predicate Unbound(t: Start, n: Name) {
    n in t.chosen && n !in t.bound
  }

  /** Docker refuses a port that is held, or asked for twice. */
  ghost predicate DockerBinds(s: State, t: Start) {
    && (forall n, k | Unbound(t, n) && Unbound(t, k) && n != k :: t.chosen[n] != t.chosen[k])
    && (forall n | Unbound(t, n) :: !Held(s, t.chosen[n]))
  }

  /** What the unique index on ports asks of the rows that are to replace those of the instance. */
  ghost predicate Acceptable(s: State, t: Start) {
    && (forall n, k | n in t.chosen && k in t.chosen && n != k :: t.chosen[n] != t.chosen[k])
    && (forall n, u, k | n in t.chosen && u != t.inst :: !HasRow(s, u, k, t.chosen[n]))
  }

  ghost predicate IsStarting(s: State, i: InstanceId) {
    s.current.Some? && s.current.value.inst == i
  }

  ghost predicate Enabled(s: State, step: Step) {
    match step
    case Open(i) => i !in s.recorded
    case Pause(port) => port in s.open
    // A row was opened for it, or its containers were paused.
    case Take(i) => s.current == None && i in s.recorded && forall n | n in s.recorded[i] :: s.recorded[i][n] !in s.open
    case Keep(n) => s.current.Some? && n !in s.current.value.chosen && IsOld(s, s.current.value.inst, n)
    // A selection reads the table and takes a port that is not in it.
    case Select(n, port) => s.current.Some? && n !in s.current.value.chosen && !IsOld(s, s.current.value.inst, n) && !IsRecorded(s, port)
    case Bind => s.current.Some? && DockerBinds(s, s.current.value)
    case Record => s.current.Some? && s.current.value.bound == s.current.value.chosen.Keys && Acceptable(s, s.current.value)
    case GiveUp => s.current.Some?
    case Clear(x) => x in s.stray
    case Resume(i, n) => IsOld(s, i, n) && !IsStarting(s, i) && !Held(s, s.recorded[i][n])
    case Release(i) => i in s.recorded && !IsStarting(s, i)
  }

  function PortsOf(ports: map<Name, Port>): set<Port> {
    set n | n in ports :: ports[n]
  }

  ghost function Strays(t: Start): set<Stray> {
    set n | n in t.bound && n in t.chosen :: Stray(t.inst, t.chosen[n])
  }

  ghost function Apply(s: State, step: Step): State
    requires Enabled(s, step)
  {
    match step
    case Open(i) => s.(recorded := s.recorded[i := map[]])
    case Pause(port) => s.(open := s.open - {port})
    case Take(i) => s.(current := Some(Start(i, map[], {})))
    case Keep(n) => s.(current := Some(Chosen(s.current.value, n, s.recorded[s.current.value.inst][n])))
    case Select(n, port) => s.(current := Some(Chosen(s.current.value, n, port)))
    case Bind => s.(current := Some(s.current.value.(bound := s.current.value.chosen.Keys)))
    case Record =>
      var t := s.current.value;
      s.(current := None, open := s.open + PortsOf(t.chosen), recorded := s.recorded[t.inst := t.chosen])
    case GiveUp => s.(current := None, stray := s.stray + Strays(s.current.value))
    case Clear(x) => s.(stray := s.stray - {x})
    case Resume(i, n) => s.(open := s.open + {s.recorded[i][n]})
    case Release(i) => s.(open := s.open - PortsOf(s.recorded[i]), recorded := s.recorded - {i})
  }

  function Chosen(t: Start, n: Name, port: Port): Start {
    t.(chosen := t.chosen[n := port])
  }

  // ------------------------------------------------------------ invariant

  ghost predicate RowsApart(s: State) {
    forall i, u, n, k, port | HasRow(s, i, n, port) && HasRow(s, u, k, port) :: i == u && n == k
  }

  /** A chosen port is the one the name had, or on nobody's record. */
  ghost predicate WellChosen(s: State, t: Start, n: Name)
    requires n in t.chosen
  {
    if IsOld(s, t.inst, n) then s.recorded[t.inst][n] == t.chosen[n] else !IsRecorded(s, t.chosen[n])
  }

  ghost predicate StartInv(s: State, t: Start) {
    && t.inst in s.recorded
    && t.bound <= t.chosen.Keys
    && (forall n | n in s.recorded[t.inst] :: s.recorded[t.inst][n] !in s.open)
    && (forall n | n in t.chosen :: WellChosen(s, t, n))
    && (forall n, k | n in t.bound && k in t.bound && n != k :: t.chosen[n] != t.chosen[k])
    && (forall n, x | n in t.bound && x in s.stray :: x.port != t.chosen[n])
  }

  /** What a failed start still holds is on nobody else's record. */
  ghost predicate StraysInv(s: State) {
    && (forall x | x in s.stray :: x.port !in s.open)
    && (forall x, u, n | x in s.stray && HasRow(s, u, n, x.port) :: u == x.inst)
    && (forall x, y | x in s.stray && y in s.stray && x.port == y.port :: x == y)
  }

  ghost predicate OpenInv(s: State) {
    forall port | port in s.open :: IsRecorded(s, port)
  }

  ghost predicate Inv(s: State) {
    && RowsApart(s)
    && OpenInv(s)
    && StraysInv(s)
    && (s.current.Some? ==> StartInv(s, s.current.value))
  }

  /** Nothing a start has chosen is open. */
  lemma ChosenIsNotOpen(s: State, t: Start, n: Name)
    requires OpenInv(s) && StartInv(s, t) && n in t.chosen
    ensures t.chosen[n] !in s.open
  {
    assert WellChosen(s, t, n);
  }

  lemma ChosenRows(s: State, t: Start, n: Name, u: InstanceId, k: Name)
    requires RowsApart(s) && StartInv(s, t) && n in t.chosen && HasRow(s, u, k, t.chosen[n])
    ensures u == t.inst && k == n && IsOld(s, t.inst, n)
  {
    assert WellChosen(s, t, n);
    if IsOld(s, t.inst, n) { assert HasRow(s, t.inst, n, t.chosen[n]); }
  }

  lemma RowsKept(s: State, step: Step)
    requires Inv(s) && Enabled(s, step)
    ensures RowsApart(Apply(s, step))
  {
    hide StraysInv, OpenInv, StartInv, WellChosen;
    var d := Apply(s, step);
    forall i, u, n, k, port | HasRow(d, i, n, port) && HasRow(d, u, k, port)
      ensures i == u && n == k
    {
      if step.Record? {
        var t := s.current.value;
        assert i != t.inst ==> HasRow(s, i, n, port);
        assert u != t.inst ==> HasRow(s, u, k, port);
      } else {
        assert HasRow(s, i, n, port) && HasRow(s, u, k, port);
      }
    }
  }

  lemma OpenKept(s: State, step: Step)
    requires Inv(s) && Enabled(s, step)
    ensures OpenInv(Apply(s, step))
  {
    hide StraysInv, StartInv, WellChosen, Acceptable, DockerBinds, Held;
    var d := Apply(s, step);
    forall port | port in d.open
      ensures IsRecorded(d, port)
    {
      match step {
        case Record =>
          var t := s.current.value;
          if port in PortsOf(t.chosen) {
            var n :| n in t.chosen && t.chosen[n] == port;
            assert HasRow(d, t.inst, n, port);
          } else {
            OpenElsewhere(s, t, port);
            var u, k :| HasRow(s, u, k, port) && u != t.inst;
            assert HasRow(d, u, k, port);
          }
        case Resume(i, n) =>
          assert HasRow(d, i, n, s.recorded[i][n]);
          if port in s.open {
            var u, k :| HasRow(s, u, k, port);
            assert HasRow(d, u, k, port);
          }
        case Release(i) =>
          var u, k :| HasRow(s, u, k, port);
          assert HasRow(d, u, k, port);
        case _ =>
          var u, k :| HasRow(s, u, k, port);
          assert HasRow(d, u, k, port);
      }
    }
  }

  lemma OpenElsewhere(s: State, t: Start, port: Port)
    requires OpenInv(s) && StartInv(s, t) && port in s.open
    ensures exists u, k :: HasRow(s, u, k, port) && u != t.inst
  {
    var u, k :| HasRow(s, u, k, port);
    assert u != t.inst;
  }

  lemma StraysKept(s: State, step: Step)
    requires Inv(s) && Enabled(s, step)
    ensures StraysInv(Apply(s, step))
  {
    hide WellChosen, StartInv, OpenInv, Acceptable;
    var d := Apply(s, step);
    match step {
      case Record => RecordedStrays(s);
      case GiveUp => MoreStrays(s);
      case Resume(i, n) =>
        forall x | x in s.stray ensures x.port != s.recorded[i][n] { assert HeldBy(s, Leftover(x), x.port); }
        assert forall u, k, port | HasRow(d, u, k, port) :: HasRow(s, u, k, port);
      case _ =>
        assert forall u, k, port | HasRow(d, u, k, port) :: HasRow(s, u, k, port);
    }
  }

  lemma RecordedStrays(s: State)
    requires Inv(s) && Enabled(s, Record)
    ensures StraysInv(Apply(s, Record))
  {
    var d, t := Apply(s, Record), s.current.value;
    assert forall x, n | x in s.stray && n in t.chosen :: x.port != t.chosen[n];
    assert forall u, k, port | u != t.inst && HasRow(d, u, k, port) :: HasRow(s, u, k, port);
  }

  lemma MoreStrays(s: State)
    requires Inv(s) && s.current.Some?
    ensures StraysInv(Apply(s, GiveUp))
  {
    var d, t := Apply(s, GiveUp), s.current.value;
    forall x | x in Strays(t)
      ensures x.port !in s.open && (forall u, n | HasRow(d, u, n, x.port) :: u == x.inst)
      ensures forall y | y in s.stray :: x.port != y.port
    {
      var n :| n in t.bound && x == Stray(t.inst, t.chosen[n]);
      ChosenIsNotOpen(s, t, n);
      forall u, k | HasRow(d, u, k, x.port) ensures u == x.inst {
        assert HasRow(s, u, k, x.port);
        ChosenRows(s, t, n, u, k);
      }
    }
    assert forall u, k, port | HasRow(d, u, k, port) :: HasRow(s, u, k, port);
  }

  /** Steps other than a recording bring no new row. */
  lemma NoNewRow(s: State, step: Step)
    requires Enabled(s, step) && !step.Record?
    ensures forall port :: IsRecorded(Apply(s, step), port) ==> IsRecorded(s, port)
  {
    forall port | IsRecorded(Apply(s, step), port) ensures IsRecorded(s, port) {
      var u, k :| HasRow(Apply(s, step), u, k, port);
      assert HasRow(s, u, k, port);
    }
  }

  lemma StartKept(s: State, step: Step)
    requires Inv(s) && Enabled(s, step) && Apply(s, step).current.Some?
    ensures StartInv(Apply(s, step), Apply(s, step).current.value)
  {
    hide IsRecorded, DockerBinds, Acceptable, Held, RowsApart, OpenInv;
    NoNewRow(s, step);
    if step.Bind? {
      NewlyBound(s);
    } else if step.Resume? {
      ResumedElsewhere(s, step.i, step.n);
    }
  }

  lemma ResumedElsewhere(s: State, i: InstanceId, n: Name)
    requires Inv(s) && Enabled(s, Resume(i, n)) && s.current.Some?
    ensures forall k | k in s.recorded[s.current.value.inst] :: s.recorded[s.current.value.inst][k] != s.recorded[i][n]
  {
    var u := s.current.value.inst;
    forall k | k in s.recorded[u] ensures s.recorded[u][k] != s.recorded[i][n] {
      assert HasRow(s, u, k, s.recorded[u][k]) && HasRow(s, i, n, s.recorded[i][n]);
    }
  }

  lemma NewlyBound(s: State)
    requires Inv(s) && Enabled(s, Bind)
    ensures
      var t := s.current.value;
      && (forall n, k | n in t.chosen && k in t.chosen && n != k :: t.chosen[n] != t.chosen[k])
      && (forall n, x | n in t.chosen && x in s.stray :: x.port != t.chosen[n])
  {
    var t := s.current.value;
    forall n, k | n in t.chosen && k in t.chosen && n != k
      ensures t.chosen[n] != t.chosen[k]
    {
      if n in t.bound { assert HeldBy(s, Current(n), t.chosen[n]); }
      if k in t.bound { assert HeldBy(s, Current(k), t.chosen[k]); }
    }
    forall n, x | n in t.chosen && x in s.stray
      ensures x.port != t.chosen[n]
    {
      assert HeldBy(s, Leftover(x), x.port);
    }
  }

  lemma InvKept(s: State, step: Step)
    requires Inv(s) && Enabled(s, step)
    ensures Inv(Apply(s, step))
  {
    hide StartInv, StraysInv, OpenInv, RowsApart;
    RowsKept(s, step);
    OpenKept(s, step);
    StraysKept(s, step);
    if Apply(s, step).current.Some? { StartKept(s, step); }
  }

  ghost predicate Run(states: seq<State>, steps: seq<Step>) {
    && |states| == |steps| + 1
    && (forall k | 0 <= k < |steps| :: Enabled(states[k], steps[k]) && states[k + 1] == Apply(states[k], steps[k]))
  }

  ghost predicate Init(s: State) {
    s.current == None && s.stray == {} && s.open == {} && RowsApart(s)
  }

  lemma {:induction false} RunInv(states: seq<State>, steps: seq<Step>, k: nat)
    requires Run(states, steps) && k < |states| && Init(states[0])
    ensures Inv(states[k])
  {
    hide Inv, Enabled, Apply;
    if k == 0 {
      hide *;
      FirstInv(states[0]);
    } else {
      RunInv(states, steps, k - 1);
      InvKept(states[k - 1], steps[k - 1]);
    }
  }

  lemma FirstInv(s: State)
    requires Init(s)
    ensures Inv(s)
  {
  }

  // -------------------------------------------------------------- results

  ghost predicate HasPort(s: State, i: InstanceId, port: Port) {
    || (IsStarting(s, i) && exists n :: n in s.current.value.chosen && s.current.value.chosen[n] == port)
    || exists n :: HasRow(s, i, n, port)
  }

  /** At no time do two instances have the same port, chosen or recorded. */
  lemma NoPortTwice(states: seq<State>, steps: seq<Step>, k: nat, i: InstanceId, u: InstanceId, port: Port)
    requires Run(states, steps) && k < |states| && Init(states[0])
    requires HasPort(states[k], i, port) && HasPort(states[k], u, port)
    ensures i == u
  {
    hide Enabled, Apply, StartInv, WellChosen;
    RunInv(states, steps, k);
    var s := states[k];
    if i != u {
      if n :| IsStarting(s, i) && n in s.current.value.chosen && s.current.value.chosen[n] == port {
        var m :| HasRow(s, u, m, port);
        ChosenRows(s, s.current.value, n, u, m);
      } else if n :| IsStarting(s, u) && n in s.current.value.chosen && s.current.value.chosen[n] == port {
        var m :| HasRow(s, i, m, port);
        ChosenRows(s, s.current.value, n, i, m);
      }
    }
  }

  /** At no time is a port held twice: by containers of instances, of the start that has the
      lock, and of failed starts. */
  lemma OneHolderPerPort(states: seq<State>, steps: seq<Step>, k: nat, h: Holder, g: Holder, port: Port)
    requires Run(states, steps) && k < |states| && Init(states[0])
    requires HeldBy(states[k], h, port) && HeldBy(states[k], g, port)
    ensures h == g
  {
    hide Enabled, Apply, WellChosen;
    RunInv(states, steps, k);
    var s := states[k];
    if h.Current? { ChosenIsNotOpen(s, s.current.value, h.n); }
    if g.Current? { ChosenIsNotOpen(s, s.current.value, g.n); }
  }

  /** What Docker has bound the unique index does not refuse. */
  lemma BoundIsAccepted(states: seq<State>, steps: seq<Step>, k: nat)
    requires Run(states, steps) && k < |states| && Init(states[0])
    requires states[k].current.Some? && states[k].current.value.bound == states[k].current.value.chosen.Keys
    ensures Enabled(states[k], Record)
  {
    hide Apply, HasRow, WellChosen;
    RunInv(states, steps, k);
    var s, t := states[k], states[k].current.value;
    forall n, u, x | n in t.chosen && u != t.inst ensures !HasRow(s, u, x, t.chosen[n]) {
      if HasRow(s, u, x, t.chosen[n]) { ChosenRows(s, t, n, u, x); }
    }
  }

  /** A failed start holds a port that `t` has chosen. */
  ghost predicate InTheWay(s: State, t: Start) {
    exists x, n :: x in s.stray && n in t.chosen && n !in t.bound && x.port == t.chosen[n]
  }

  ghost predicate OneNewName(s: State, t: Start) {
    forall n, k | n in t.chosen && k in t.chosen && !IsOld(s, t.inst, n) && !IsOld(s, t.inst, k) :: n == k
  }

  lemma OldAreApart(s: State, t: Start, n: Name, k: Name)
    requires RowsApart(s) && StartInv(s, t) && n in t.chosen && k in t.chosen && n != k && IsOld(s, t.inst, n)
    ensures t.chosen[n] != t.chosen[k]
  {
    assert WellChosen(s, t, n);
    assert HasRow(s, t.inst, n, t.chosen[n]);
    if t.chosen[n] == t.chosen[k] { ChosenRows(s, t, k, t.inst, n); }
  }

  /** Names that had no port have chosen different ones. */
  ghost predicate NewApart(s: State, t: Start) {
    forall n, k | n in t.chosen && k in t.chosen && !IsOld(s, t.inst, n) && !IsOld(s, t.inst, k) && n != k :: t.chosen[n] != t.chosen[k]
  }

  /** Docker binds what a start has chosen if and only if its new names have chosen different
      ports and no container of a failed start, not yet removed, holds one of them.  With at
      most one new name only the failed starts matter. */
  lemma BoundIff(states: seq<State>, steps: seq<Step>, k: nat)
    requires Run(states, steps) && k < |states| && Init(states[0]) && states[k].current.Some?
    ensures
      var s, t := states[k], states[k].current.value;
      && (Enabled(s, Bind) <==> NewApart(s, t) && !InTheWay(s, t))
      && (OneNewName(s, t) ==> NewApart(s, t))
  {
    hide Apply, Run, NewApart, InTheWay, Inv, DockerBinds;
    RunInv(states, steps, k);
    var s := states[k];
    if Enabled(s, Bind) { BoundAreApart(s); }
    if NewApart(s, s.current.value) && !InTheWay(s, s.current.value) { ApartAreBound(s); }
    OneIsApart(s, s.current.value);
  }

  lemma OneIsApart(s: State, t: Start)
    ensures OneNewName(s, t) ==> NewApart(s, t)
  {
  }

  lemma BoundAreApart(s: State)
    requires Inv(s) && Enabled(s, Bind)
    ensures NewApart(s, s.current.value) && !InTheWay(s, s.current.value)
  {
    NewlyBound(s);
  }

  lemma ApartAreBound(s: State)
    requires Inv(s) && s.current.Some? && NewApart(s, s.current.value) && !InTheWay(s, s.current.value)
    ensures Enabled(s, Bind)
  {
    hide HasRow, WellChosen, StartInv;
    var t := s.current.value;
    forall n, m | n in t.chosen && m in t.chosen && n != m ensures t.chosen[n] != t.chosen[m] {
      if IsOld(s, t.inst, n) {
        OldAreApart(s, t, n, m);
      } else if IsOld(s, t.inst, m) {
        OldAreApart(s, t, m, n);
      }
    }
    forall n | Unbound(t, n) ensures !Held(s, t.chosen[n]) {
      ChosenIsNotOpen(s, t, n);
      assert forall h :: !HeldBy(s, h, t.chosen[n]);
    }
  }

  /** Only a start that fails with the lock leaves a port held, so a caller that takes the lock
      when none is left is never in the way of a failed start. */
  lemma {:induction false} NothingComesInTheWay(states: seq<State>, steps: seq<Step>, j: nat, k: nat)
    requires Run(states, steps) && j <= k < |states| && states[j].stray == {}
    requires forall l | j <= l <= k :: states[l].current.Some?
    ensures states[k].stray == {}
    decreases k
  {
    hide Enabled;
    if j < k {
      NothingComesInTheWay(states, steps, j, k - 1);
      assert Enabled(states[k - 1], steps[k - 1]) && states[k] == Apply(states[k - 1], steps[k - 1]);
    }
  }

  lemma BoundWhereNothingIsLeft(states: seq<State>, steps: seq<Step>, j: nat, k: nat)
    requires Run(states, steps) && j <= k < |states| && Init(states[0]) && states[j].stray == {}
    requires forall l | j <= l <= k :: states[l].current.Some?
    requires OneNewName(states[k], states[k].current.value)
    ensures Enabled(states[k], Bind)
  {
    hide Run, Enabled, Init, OneNewName, NewApart;
    NothingComesInTheWay(states, steps, j, k);
    BoundIff(states, steps, k);
  }

  /** A stopped container gets its port back unless a failed start of its own instance holds
      it: no other start can have come to hold it. */
  lemma ResumesIff(states: seq<State>, steps: seq<Step>, k: nat, i: InstanceId, n: Name)
    requires Run(states, steps) && k < |states| && Init(states[0])
    requires IsOld(states[k], i, n) && !IsStarting(states[k], i) && states[k].recorded[i][n] !in states[k].open
    ensures Enabled(states[k], Resume(i, n)) <==> Stray(i, states[k].recorded[i][n]) !in states[k].stray
  {
    hide Apply, WellChosen, StartInv;
    RunInv(states, steps, k);
    var s, port := states[k], states[k].recorded[i][n];
    assert HasRow(s, i, n, port);
    if h :| HeldBy(s, h, port) {
      if h.Current? { 
        BoundIsChosen(s, h.n);
        ChosenRows(s, s.current.value, h.n, i, n);
      }
    }
    if Stray(i, port) in s.stray { assert HeldBy(s, Leftover(Stray(i, port)), port); }
  }

  lemma BoundIsChosen(s: State, n: Name)
    requires Inv(s) && s.current.Some? && n in s.current.value.bound
    ensures n in s.current.value.chosen
  {
  }

  /** The steps can be taken from `s` and lead to `d`. */
  ghost predicate Leads(s: State, steps: seq<Step>, d: State)
    decreases |steps|
  {
    if steps == [] then s == d
    else Enabled(s, steps[0]) && Leads(Apply(s, steps[0]), steps[1..], d)
  }

  lemma {:induction false} LeadsOn(s: State, steps: seq<Step>, mid: State, step: Step)
    requires Leads(s, steps, mid) && Enabled(mid, step)
    ensures Leads(s, steps + [step], Apply(mid, step))
    decreases |steps|
  {
    hide Enabled, Apply;
    if steps == [] {
      assert [step][1..] == [];
    } else {
      LeadsOn(Apply(s, steps[0]), steps[1..], mid, step);
      assert (steps + [step])[1..] == steps[1..] + [step];
    }
  }

  /** A start takes the lock and selects one port. */
  lemma Selects(s: State, steps: seq<Step>, mid: State, i: InstanceId, n: Name, port: Port) returns (d: State)
    requires Leads(s, steps, mid) && mid.current == None && i in mid.recorded && mid.recorded[i] == map[]
    requires !IsRecorded(mid, port)
    ensures d == mid.(current := Some(Start(i, map[n := port], {})))
    ensures Leads(s, steps + [Take(i), Select(n, port)], d)
  {
    hide IsRecorded, Leads;
    OneNameIsSelected(mid, i, n, port);
    LeadsOn(s, steps, mid, Take(i));
    d := Apply(Apply(mid, Take(i)), Select(n, port));
    LeadsOn(s, steps + [Take(i)], Apply(mid, Take(i)), Select(n, port));
    assert steps + [Take(i)] + [Select(n, port)] == steps + [Take(i), Select(n, port)];
  }

  /** A failed start does not give its ports back before it gives back the lock: the next one
      can select a port that is still held, and Docker refuses it although it has only one
      new name.  It could go on once the failed start has been cleared. */
  lemma RefusedUntilCleared(s: State, i: InstanceId, j: InstanceId, n: Name, k: Name, port: Port) returns (d: State)
    requires s.current == None && i in s.recorded && j in s.recorded
    requires s.recorded[i] == map[] == s.recorded[j] && !IsRecorded(s, port) && !Held(s, port)
    ensures Leads(s, [Take(i), Select(n, port), Bind, GiveUp, Take(j), Select(k, port)], d)
    ensures d.current == Some(Start(j, map[k := port], {})) && OneNewName(d, d.current.value)
    ensures !Enabled(d, Bind)
    ensures Enabled(d, Clear(Stray(i, port))) && Enabled(Apply(d, Clear(Stray(i, port))), Bind)
  {
    hide IsRecorded, Held, Leads;
    LeadsNowhere(s);
    var a := Selects(s, [], s, i, n, port);
    OneNameIsBound(s, a, n, port);
    var one := [] + [Take(i), Select(n, port)];
    LeadsOn(s, one, a, Bind);
    var b := Apply(a, Bind);
    LeadsOn(s, one + [Bind], b, GiveUp);
    var c := Apply(b, GiveUp);
    assert c == s.(stray := s.stray + {Stray(i, port)});
    SameRows(s, c, port);
    var first := one + [Bind] + [GiveUp];
    d := Selects(s, first, c, j, k, port);
    assert first + [Take(j), Select(k, port)] == [Take(i), Select(n, port), Bind, GiveUp, Take(j), Select(k, port)];
    assert HeldBy(d, Leftover(Stray(i, port)), port) && Unbound(d.current.value, k);
    HeldAtAll(d, Leftover(Stray(i, port)), port);
    StrayIsNew(s, i, port);
    OneNameIsBound(s, d.(stray := d.stray - {Stray(i, port)}), k, port);
  }

  lemma LeadsFirst(s: State, step: Step, mid: State, rest: seq<Step>, d: State) returns (steps: seq<Step>)
    requires Enabled(s, step) && mid == Apply(s, step) && Leads(mid, rest, d)
    ensures Leads(s, steps, d)
  {
    hide Enabled, Apply;
    steps := [step] + rest;
    assert steps[1..] == rest;
  }

  lemma {:induction false} LeadsTwice(s: State, steps: seq<Step>, mid: State, more: seq<Step>, d: State)
    requires Leads(s, steps, mid) && Leads(mid, more, d)
    ensures Leads(s, steps + more, d)
    decreases |steps|
  {
    hide Enabled, Apply;
    if steps == [] {
      assert steps + more == more;
    } else {
      LeadsTwice(Apply(s, steps[0]), steps[1..], mid, more, d);
      assert (steps + more)[1..] == steps[1..] + more;
    }
  }

  /** What can be reached is reached by a run. */
  lemma {:induction false} LeadsIsRun(s: State, steps: seq<Step>, d: State) returns (states: seq<State>)
    requires Leads(s, steps, d)
    ensures Run(states, steps) && states[0] == s && states[|steps|] == d
    decreases |steps|
  {
    hide Enabled, Apply;
    if steps == [] {
      return [s];
    }
    var rest := LeadsIsRun(Apply(s, steps[0]), steps[1..], d);
    states := [s] + rest;
    forall k | 0 <= k < |steps| ensures Enabled(states[k], steps[k]) && states[k + 1] == Apply(states[k], steps[k]) {
      if k > 0 { assert steps[k] == steps[1..][k - 1] && Enabled(rest[k - 1], steps[1..][k - 1]); }
    }
  }

  lemma LeadsNowhere(s: State)
    ensures Leads(s, [], s)
  {
  }

  lemma HeldAtAll(s: State, h: Holder, port: Port)
    requires HeldBy(s, h, port)
    ensures Held(s, port)
  {
  }

  lemma StrayIsNew(s: State, i: InstanceId, port: Port)
    requires !Held(s, port)
    ensures (s.stray + {Stray(i, port)}) - {Stray(i, port)} == s.stray
  {
    if Stray(i, port) in s.stray { assert HeldBy(s, Leftover(Stray(i, port)), port); }
  }

  lemma SameRows(s: State, d: State, port: Port)
    requires d.recorded == s.recorded
    ensures IsRecorded(d, port) <==> IsRecorded(s, port)
  {
    assert forall u, x :: HasRow(d, u, x, port) <==> HasRow(s, u, x, port);
  }

  lemma OneNameIsSelected(s: State, i: InstanceId, n: Name, port: Port)
    requires s.current == None && i in s.recorded && s.recorded[i] == map[] && !IsRecorded(s, port)
    ensures Enabled(s, Take(i)) && Enabled(Apply(s, Take(i)), Select(n, port))
    ensures Apply(Apply(s, Take(i)), Select(n, port)) == s.(current := Some(Start(i, map[n := port], {})))
  {
    SameRows(s, Apply(s, Take(i)), port);
  }

  lemma OneNameIsBound(s: State, a: State, n: Name, port: Port)
    requires s.current == None && !Held(s, port)
    requires a.current.Some? && a == s.(current := Some(Start(a.current.value.inst, map[n := port], {})))
    ensures Enabled(a, Bind) && Apply(a, Bind) == a.(current := Some(Start(a.current.value.inst, map[n := port], {n})))
  {
    if h :| HeldBy(a, h, port) { assert HeldBy(s, h, port); }
    assert map[n := port].Keys == {n};
  }

  /** A start with two new names can be refused whatever was left, as long as a port is free:
      the table it reads shows committed rows only. */
  lemma TwoNewNamesCanClash(s: State, n: Name, k: Name, port: Port)
    requires s.current.Some? && n != k && n !in s.current.value.chosen && k !in s.current.value.chosen
    requires s.current.value.bound <= s.current.value.chosen.Keys
    requires !IsOld(s, s.current.value.inst, n) && !IsOld(s, s.current.value.inst, k) && !IsRecorded(s, port)
    ensures Enabled(s, Select(n, port))
    ensures
      var d := Apply(s, Select(n, port));
      Enabled(d, Select(k, port)) && !Enabled(Apply(d, Select(k, port)), Bind)
  {
    var d := Apply(s, Select(n, port));
    assert forall u, x, p | HasRow(d, u, x, p) :: HasRow(s, u, x, p);
    var e := Apply(d, Select(k, port));
    assert Unbound(e.current.value, n) && Unbound(e.current.value, k);
  }
}
