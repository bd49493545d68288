/** Changeover machines, one per line, over one shared log from which a restarted machine recovers. */
module Changeover {
  import opened Protocol

  datatype State = Running | Stopping | CountingOut | Storing | Delivering | CountingIn | Ready

  const StateOrder: seq<State> := [Running, Stopping, CountingOut, Storing, Delivering, CountingIn, Ready, Running]

  /** First position of a state in the progression from `i` on. */
  function StateIndexFrom(s: State, i: nat): (r: Option<nat>)
    requires i <= |StateOrder|
    decreases |StateOrder| - i
  {
    if i == |StateOrder| then None else if StateOrder[i] == s then Some(i) else StateIndexFrom(s, i + 1)
  }

  function NextState(s: State): Option<State> {
    var i := StateIndexFrom(s, 0);
    if i.Some? && i.value + 1 < |StateOrder| then Some(StateOrder[i.value + 1]) else None
  }

  datatype Entry = Entry(line: nat, from: string, to: string, state: State, detail: string, operator: string)

  datatype Event =
    | Started(line: nat, from: string, to: string)
    | StateChanged(line: nat, from: string, to: string, old_: State, new_: State)
    | Completed(line: nat, from: string, to: string)
    | CancelledBy(line: nat, from: string, to: string, operator: string)

  datatype Machine = Machine(line: nat, from: string, to: string, state: State, active: bool)

  function Fresh(line: nat): Machine { Machine(line, "", "", Running, false) }

  /** What one operation does: the machine afterwards, what it logs and what it emits. */
  datatype Effect = Effect(machine: Machine, logged: seq<Entry>, emitted: seq<Event>)

  function Log(m: Machine, state: State, detail: string, operator: string): Entry {
    Entry(m.line, m.from, m.to, state, detail, operator)
  }

  function Refused(m: Machine): Effect { Effect(m, [], []) }

  function StartEffect(m: Machine, from: string, to: string, operator: string): Effect {
    if m.active then Refused(m)
    else
      var m' := m.(from := from, to := to, state := Stopping, active := true);
      Effect(m', [Log(m', Stopping, "changeover initiated", operator)],
             [Started(m.line, from, to), StateChanged(m.line, from, to, Running, Stopping)])
  }

  function AdvanceEffect(m: Machine, operator: string): Effect {
    var next := NextState(m.state);
    if !m.active || next.None? then Refused(m)
    else
      var m' := m.(state := next.value, active := next.value != Running);
      var changed := StateChanged(m.line, m.from, m.to, m.state, next.value);
      Effect(m', [Log(m', next.value, "", operator)],
             if next.value == Running then [changed, Completed(m.line, m.from, m.to)] else [changed])
  }

  /** The styles are cleared before the transition is logged. */
  function CancelEffect(m: Machine, operator: string): Effect {
    if !m.active then Refused(m)
    else
      var m' := Fresh(m.line);
      Effect(m', [Log(m', Running, "changeover cancelled", operator)],
             [StateChanged(m.line, m.from, m.to, m.state, Running), CancelledBy(m.line, m.from, m.to, operator)])
  }

  /** The newest entry of a line. */
  function Latest(log: seq<Entry>, line: nat): Option<Entry> {
    if log == [] then None
    else if log[|log| - 1].line == line then Some(log[|log| - 1])
    else Latest(log[..|log| - 1], line)
  }

  function Restored(log: seq<Entry>, line: nat): Machine {
    var e := Latest(log, line);
    if e.None? || e.value.state == Running then Fresh(line)
    else Machine(line, e.value.from, e.value.to, e.value.state, true)
  }

  // ---------- the code ----------

  class Database {
    var log: seq<Entry>
    var events: seq<Event>

    constructor ()
      ensures log == [] && events == []
    {
      log, events := [], [];
    }

    method InsertChangeoverLog(e: Entry)
      modifies this`log
      ensures log == old(log) + [e]
    {
      log := log + [e];
    }

    method Emit(ev: Event)
      modifies this`events
      ensures events == old(events) + [ev]
    {
      events := events + [ev];
    }

    method GetLatestChangeoverState(line: nat) returns (e: Option<Entry>)
      ensures e == Latest(log, line)
    {
      var i := |log|;
      assert log[..i] == log;
      while i > 0
        invariant 0 <= i <= |log| && Latest(log, line) == Latest(log[..i], line)
      {
        assert log[..i][..i - 1] == log[..i - 1];
        if log[i - 1].line == line { return Some(log[i - 1]); }
        i := i - 1;
      }
      return None;
    }
  }

  /** One line's machine; the database is shared with the other lines. */
  class LineMachine {
    const line: nat
    const db: Database
    var from: string
    var to: string
    var state: State
    var active: bool

    ghost function Value(): Machine
      reads this
    {
      Machine(line, from, to, state, active)
    }

    constructor (line: nat, db: Database)
      ensures Value() == Fresh(line) && this.db == db
    {
      this.line, this.db, from, to, state, active := line, db, "", "", Running, false;
    }

    twostate predicate Did(e: Effect)
      reads this, db
    {
      Value() == e.machine && db.log == old(db.log) + e.logged && db.events == old(db.events) + e.emitted
    }

    method StartChangeover(fromStyle: string, toStyle: string, operator: string) returns (ok: bool)
      modifies this, db
      ensures ok == !old(active) && Did(StartEffect(old(Value()), fromStyle, toStyle, operator))
    {
      if active { return false; }
      from, to, state, active := fromStyle, toStyle, Stopping, true;
      db.InsertChangeoverLog(Entry(line, fromStyle, toStyle, Stopping, "changeover initiated", operator));
      db.Emit(Started(line, fromStyle, toStyle));
      db.Emit(StateChanged(line, fromStyle, toStyle, Running, Stopping));
      ok := true;
    }

    method AdvanceChangeover(operator: string) returns (ok: bool)
      modifies this, db
      ensures ok == (old(active) && NextState(old(state)).Some?) && Did(AdvanceEffect(old(Value()), operator))
    {
      if !active { return false; }
      var next := NextState(state);
      if next.None? { return false; }
      var oldState := state;
      state := next.value;
      db.InsertChangeoverLog(Entry(line, from, to, next.value, "", operator));
      db.Emit(StateChanged(line, from, to, oldState, next.value));
      if next.value == Running {
        active := false;
        db.Emit(Completed(line, from, to));
      }
      ok := true;
    }

    method CancelChangeover(operator: string) returns (ok: bool)
      modifies this, db
      ensures ok == old(active) && Did(CancelEffect(old(Value()), operator))
    {
      if !active { return false; }
      var oldState, f, t := state, from, to;
      state, active, from, to := Running, false, "", "";
      db.InsertChangeoverLog(Entry(line, from, to, Running, "changeover cancelled", operator));
      db.Emit(StateChanged(line, f, t, oldState, Running));
      db.Emit(CancelledBy(line, f, t, operator));
      ok := true;
    }

    /** Called on a fresh machine when the process starts. */
    method Restore()
      requires Value() == Fresh(line)
      modifies this
      ensures Value() == Restored(db.log, line)
    {
      var entry := db.GetLatestChangeoverState(line);
      if entry.None? || entry.value.state == Running { return; }
      from, to, state, active := entry.value.from, entry.value.to, entry.value.state, true;
    }
  }

  // ---------- any number of lines ----------

  datatype Plant = Plant(machines: map<nat, Machine>, log: seq<Entry>, events: seq<Event>)

  datatype Action =
    | AStart(line: nat, from: string, to: string, operator: string)
    | AAdvance(line: nat, operator: string)
    | ACancel(line: nat, operator: string)
    | ARestart(line: nat)

  function Apply(s: Plant, e: Effect): Plant {
    Plant(s.machines[e.machine.line := e.machine], s.log + e.logged, s.events + e.emitted)
  }

  function EffectOf(m: Machine, log: seq<Entry>, a: Action): Effect {
    match a
    case AStart(_, from, to, operator) => StartEffect(m, from, to, operator)
    case AAdvance(_, operator) => AdvanceEffect(m, operator)
    case ACancel(_, operator) => CancelEffect(m, operator)
    case ARestart(_) => Refused(Restored(log, m.line))
  }

  function Step(s: Plant, a: Action): Plant {
    if a.line in s.machines then Apply(s, EffectOf(s.machines[a.line], s.log, a)) else s
  }

  function Run(s: Plant, acts: seq<Action>): Plant {
    if acts == [] then s else Step(Run(s, acts[..|acts| - 1]), acts[|acts| - 1])
  }

  predicate Init(s: Plant) {
    s.log == [] && s.events == [] && forall x :: x in s.machines ==> s.machines[x] == Fresh(x)
  }

  // ---------- recovery ----------

  /** Same as far as anyone can tell: styles matter only while a changeover is active. */
  predicate SameMachine(a: Machine, b: Machine) {
    a.line == b.line && a.state == b.state && a.active == b.active && (a.active ==> a.from == b.from && a.to == b.to)
  }

  predicate Faithful(m: Machine, log: seq<Entry>, line: nat) {
    m.line == line && (m.active <==> m.state != Running) && SameMachine(Restored(log, line), m)
  }

  predicate Ok(s: Plant, line: nat)
    requires line in s.machines
  {
    Faithful(s.machines[line], s.log, line)
  }

  function Starts(evs: seq<Event>, line: nat): nat {
    if evs == [] then 0
    else
      var last := evs[|evs| - 1];
      Starts(evs[..|evs| - 1], line) + if last.Started? && last.line == line then 1 else 0
  }

  function Completions(evs: seq<Event>, line: nat): nat {
    if evs == [] then 0
    else
      var last := evs[|evs| - 1];
      Completions(evs[..|evs| - 1], line) + if last.Completed? && last.line == line then 1 else 0
  }

  function Cancels(evs: seq<Event>, line: nat): nat {
    if evs == [] then 0
    else
      var last := evs[|evs| - 1];
      Cancels(evs[..|evs| - 1], line) + if last.CancelledBy? && last.line == line then 1 else 0
  }

  lemma CountAppend(evs: seq<Event>, ev: Event, line: nat)
    ensures Starts(evs + [ev], line) == Starts(evs, line) + if ev.Started? && ev.line == line then 1 else 0
    ensures Completions(evs + [ev], line) == Completions(evs, line) + if ev.Completed? && ev.line == line then 1 else 0
    ensures Cancels(evs + [ev], line) == Cancels(evs, line) + if ev.CancelledBy? && ev.line == line then 1 else 0
  {
  }

  /** An effect logs nothing and emits nothing, or logs one entry and emits one or two events. */
  lemma EffectShape(s: Plant, a: Action, line: nat)
    requires a.line in s.machines && s.machines[a.line].line == a.line
    ensures var e := EffectOf(s.machines[a.line], s.log, a); var m := s.machines[a.line];
      && e.machine.line == a.line
      && (e.logged == [] || (|e.logged| == 1 && e.logged[0].line == a.line))
      && Starts(s.events + e.emitted, line) ==
        Starts(s.events, line) + (if a.AStart? && !m.active && a.line == line then 1 else 0)
      && Completions(s.events + e.emitted, line) ==
           Completions(s.events, line)
             + (if a.AAdvance? && m.active && NextState(m.state) == Some(Running) && a.line == line then 1 else 0)
      && Cancels(s.events + e.emitted, line) ==
        Cancels(s.events, line) + (if a.ACancel? && m.active && a.line == line then 1 else 0)
  {
    hide NextState, Starts, Completions, Cancels;
    var e := EffectOf(s.machines[a.line], s.log, a);
    if e.emitted == [] {
      assert s.events + e.emitted == s.events;
    } else {
      CountAppend(s.events, e.emitted[0], line);
      if |e.emitted| == 1 {
        assert s.events + e.emitted == s.events + [e.emitted[0]];
      } else {
        CountAppend(s.events + [e.emitted[0]], e.emitted[1], line);
        assert s.events + e.emitted == s.events + [e.emitted[0]] + [e.emitted[1]];
      }
    }
  }

  ghost predicate Inv(s: Plant) {
    && (forall x :: x in s.machines ==> Ok(s, x))
    && forall x :: x in s.machines ==>
      Starts(s.events, x) == Completions(s.events, x) + Cancels(s.events, x) + if s.machines[x].active then 1 else 0
  }

  /** An operation leaves its machine and the log in agreement. */
  lemma OwnFaithful(m: Machine, log: seq<Entry>, a: Action)
    requires Faithful(m, log, m.line)
    ensures var e := EffectOf(m, log, a); Faithful(e.machine, log + e.logged, m.line)
  {
    var e := EffectOf(m, log, a);
    if e.logged == [] {
      assert log + e.logged == log;
    } else {
      assert log + e.logged == log + [e.logged[0]];
    }
  }

  /** Entries of other lines do not show. */
  lemma OthersFaithful(m: Machine, log: seq<Entry>, more: seq<Entry>, line: nat)
    requires Faithful(m, log, line) && (more == [] || (|more| == 1 && more[0].line != line))
    ensures Faithful(m, log + more, line)
  {
    if more == [] {
      assert log + more == log;
    } else {
      assert log + more == log + [more[0]];
    }
  }

  lemma OkStep(s: Plant, a: Action, line: nat)
    requires a.line in s.machines && line in s.machines && Ok(s, a.line) && Ok(s, line)
    ensures line in Step(s, a).machines && Ok(Step(s, a), line)
  {
    EffectShape(s, a, line);
    if a.line == line { OwnFaithful(s.machines[line], s.log, a); }
    else { OthersFaithful(s.machines[line], s.log, EffectOf(s.machines[a.line], s.log, a).logged, line); }
  }

  lemma StepKeeps(s: Plant, a: Action)
    requires Inv(s)
    ensures Inv(Step(s, a)) && Step(s, a).machines.Keys == s.machines.Keys
  {
    if a.line in s.machines {
      assert Ok(s, a.line);
      var f := Step(s, a);
      forall x | x in f.machines
        ensures Ok(f, x) && Starts(f.events, x) ==
          Completions(f.events, x) + Cancels(f.events, x) + if f.machines[x].active then 1 else 0
      {
        assert x in s.machines && Ok(s, x) by { EffectShape(s, a, x); }
        OkStep(s, a, x);
        EffectShape(s, a, x);
      }
      EffectShape(s, a, a.line);
    }
  }

  lemma {:induction false} RunKeeps(s: Plant, acts: seq<Action>)
    requires Inv(s)
    ensures Inv(Run(s, acts)) && Run(s, acts).machines.Keys == s.machines.Keys
  {
    if acts != [] {
      RunKeeps(s, acts[..|acts| - 1]);
      StepKeeps(Run(s, acts[..|acts| - 1]), acts[|acts| - 1]);
    }
  }

  lemma InitHolds(s: Plant)
    requires Init(s)
    ensures Inv(s)
  {
  }

  /**
   After any interleaving over any number of lines, restarts included, a restored machine is the machine
   that was lost.
   */
  lemma RecoveryIsFaithful(s: Plant, acts: seq<Action>, line: nat)
    requires Init(s) && line in s.machines
    ensures var f := Run(s, acts); line in f.machines && SameMachine(Restored(f.log, line), f.machines[line])
  {
    InitHolds(s);
    RunKeeps(s, acts);
    assert Ok(Run(s, acts), line);
  }

  /** Active means not running, and every changeover started is completed, cancelled or still active. */
  lemma StartedIsAccountedFor(s: Plant, acts: seq<Action>, line: nat)
    requires Init(s) && line in s.machines
    ensures var f := Run(s, acts);
      line in f.machines && (f.machines[line].active <==> f.machines[line].state != Running)
    ensures var f := Run(s, acts);
      Starts(f.events, line) ==
        Completions(f.events, line) + Cancels(f.events, line) + if f.machines[line].active then 1 else 0
  {
    InitHolds(s);
    RunKeeps(s, acts);
    assert Ok(Run(s, acts), line);
  }

  // ---------- six steps ----------

  function Advances(acts: seq<Action>, line: nat): nat {
    if acts == [] then 0
    else
      var last := acts[|acts| - 1];
      Advances(acts[..|acts| - 1], line) + if last.AAdvance? && last.line == line then 1 else 0
  }

  predicate LeavesAlone(acts: seq<Action>, line: nat) {
    forall a :: a in acts ==> (a.AStart? || a.ACancel?) ==> a.line != line
  }

  /** Where a changeover stands after its start and `n` advances. */
  function Stage(n: nat): State {
    if n == 0 then Stopping
    else if n == 1 then CountingOut
    else if n == 2 then Storing
    else if n == 3 then Delivering
    else if n == 4 then CountingIn
    else if n == 5 then Ready
    else Running
  }

  /** Position in the progression, and whether the changeover is still on. */
  predicate At(m: Machine, k: nat) { 1 <= k <= 7 && m.state == Stage(k - 1) && (m.active <==> k < 7) }

  lemma AdvanceMoves(m: Machine, operator: string, k: nat)
    requires At(m, k) && 1 <= k < 7
    ensures At(AdvanceEffect(m, operator).machine, k + 1)
  {
  }

  lemma StepMoves(s: Plant, a: Action, line: nat, k: nat)
    requires Inv(s) && line in s.machines && At(s.machines[line], k) && 1 <= k
    requires (a.AStart? || a.ACancel?) ==> a.line != line
    requires a.AAdvance? && a.line == line ==> k < 7
    ensures var f := Step(s, a); var d := if a.AAdvance? && a.line == line then 1 else 0;
      && line in f.machines && At(f.machines[line], k + d)
      && Completions(f.events, line) == Completions(s.events, line) + (if d == 1 && k == 6 then 1 else 0)
  {
    assert Ok(s, line);
    if a.line in s.machines {
      assert Ok(s, a.line);
      EffectShape(s, a, line);
      if a.line == line && a.AAdvance? { AdvanceMoves(s.machines[line], a.operator, k); }
    }
  }

  /**
   A changeover takes exactly six advances of its line: after n of them, whatever other lines do and
   however often any machine is restarted, it is at the n-th step, active if n < 6 and completed once if n = 6.
   */
  lemma {:induction false} ExactlySixAdvances(s: Plant, acts: seq<Action>, line: nat)
    requires Inv(s) && line in s.machines && At(s.machines[line], 1)
    requires LeavesAlone(acts, line) && Advances(acts, line) <= 6
    ensures var f := Run(s, acts); var n := Advances(acts, line);
      && line in f.machines && At(f.machines[line], 1 + n)
      && Completions(f.events, line) == Completions(s.events, line) + if n == 6 then 1 else 0
  {
    if acts != [] {
      var front, a := acts[..|acts| - 1], acts[|acts| - 1];
      assert a in acts && forall x :: x in front ==> x in acts;
      ExactlySixAdvances(s, front, line);
      RunKeeps(s, front);
      StepMoves(Run(s, front), a, line, 1 + Advances(front, line));
    }
  }

  // ---------- one changeover from start to end ----------

  function Least(a: nat, b: nat): nat { if a < b then a else b }

  function LineEvents(evs: seq<Event>, line: nat): seq<Event> {
    if evs == [] then []
    else LineEvents(evs[..|evs| - 1], line) + if evs[|evs| - 1].line == line then [evs[|evs| - 1]] else []
  }

  function LineEntries(log: seq<Entry>, line: nat): seq<Entry> {
    if log == [] then []
    else LineEntries(log[..|log| - 1], line) + if log[|log| - 1].line == line then [log[|log| - 1]] else []
  }

  lemma EventsConcat(a: seq<Event>, b: seq<Event>, line: nat)
    ensures LineEvents(a + b, line) == LineEvents(a, line) + LineEvents(b, line)
  {
    if b == [] {
      assert a + b == a;
    } else {
      assert (a + b)[..|a + b| - 1] == a + b[..|b| - 1];
      EventsConcat(a, b[..|b| - 1], line);
    }
  }

  lemma EntriesConcat(a: seq<Entry>, b: seq<Entry>, line: nat)
    ensures LineEntries(a + b, line) == LineEntries(a, line) + LineEntries(b, line)
  {
    if b == [] {
      assert a + b == a;
    } else {
      assert (a + b)[..|a + b| - 1] == a + b[..|b| - 1];
      EntriesConcat(a, b[..|b| - 1], line);
    }
  }

  lemma {:induction false} OwnEvents(evs: seq<Event>, own: nat, line: nat)
    requires forall i :: 0 <= i < |evs| ==> evs[i].line == own
    ensures LineEvents(evs, line) == if own == line then evs else []
  {
    if evs != [] {
      var front, x := evs[..|evs| - 1], evs[|evs| - 1];
      OwnEvents(front, own, line);
      if own == line { assert evs == front + [x]; }
    }
  }

  lemma {:induction false} OwnEntries(log: seq<Entry>, own: nat, line: nat)
    requires forall i :: 0 <= i < |log| ==> log[i].line == own
    ensures LineEntries(log, line) == if own == line then log else []
  {
    if log != [] {
      var front, x := log[..|log| - 1], log[|log| - 1];
      OwnEntries(front, own, line);
      if own == line { assert log == front + [x]; }
    }
  }

  /** What the k-th advance announces: the change, and the completion with the sixth. */
  function Announced(line: nat, from: string, to: string, k: nat): seq<Event>
    requires k > 0
  {
    [StateChanged(line, from, to, Stage(k - 1), Stage(k))] + if k == 6 then [Completed(line, from, to)] else []
  }

  /** What the advances of a line announce, in order; from the seventh on they are refused. */
  function Trail(acts: seq<Action>, line: nat, from: string, to: string): seq<Event> {
    if acts == [] then []
    else
      var front, last := acts[..|acts| - 1], acts[|acts| - 1];
      var k := Advances(front, line) + 1;
      Trail(front, line, from, to)
      + if last.AAdvance? && last.line == line && k <= 6 then Announced(line, from, to, k) else []
  }

  /** What they log: the state entered, by whom. */
  function Record(acts: seq<Action>, line: nat, from: string, to: string): seq<Entry> {
    if acts == [] then []
    else
      var front, last := acts[..|acts| - 1], acts[|acts| - 1];
      var k := Advances(front, line) + 1;
      Record(front, line, from, to)
      + (if last.AAdvance? && last.line == line && k <= 6 then [Entry(line, from, to, Stage(k), "", last.operator)]
         else [])
  }

  /** A changeover after `n` advances, for as long as it is on. */
  predicate UnderWay(m: Machine, line: nat, from: string, to: string, n: nat) {
    m.line == line && m.state == Stage(n) && (m.active <==> n < 6) && (n < 6 ==> m.from == from && m.to == to)
  }

  lemma AdvanceGoesOn(m: Machine, operator: string, line: nat, from: string, to: string, n: nat)
    requires UnderWay(m, line, from, to, n)
    ensures var e := AdvanceEffect(m, operator);
      && UnderWay(e.machine, line, from, to, Least(n + 1, 6))
      && e.logged == (if n < 6 then [Entry(line, from, to, Stage(n + 1), "", operator)] else [])
      && e.emitted == if n < 6 then Announced(line, from, to, n + 1) else []
  {
  }

  /** An advance or a restart of the line itself. */
  lemma OwnStep(s: Plant, a: Action, line: nat, from: string, to: string, n: nat)
    requires Inv(s) && line in s.machines && UnderWay(s.machines[line], line, from, to, n) && n <= 6
    requires a.line == line && (a.AAdvance? || a.ARestart?)
    ensures var e := EffectOf(s.machines[line], s.log, a); var k := if a.AAdvance? then Least(n + 1, 6) else n;
      && e.machine.line == line && UnderWay(e.machine, line, from, to, k)
      && e.emitted == (if a.AAdvance? && n < 6 then Announced(line, from, to, n + 1) else [])
      && e.logged == if a.AAdvance? && n < 6 then [Entry(line, from, to, Stage(n + 1), "", a.operator)] else []
  {
    hide NextState, Restored;
    assert Ok(s, line);
    if a.AAdvance? { AdvanceGoesOn(s.machines[line], a.operator, line, from, to, n); }
  }

  /** Everything an operation emits and logs is of its machine's line. */
  lemma EffectIsOwn(m: Machine, log: seq<Entry>, a: Action)
    ensures var e := EffectOf(m, log, a);
      && (forall i :: 0 <= i < |e.emitted| ==> e.emitted[i].line == m.line)
      && forall i :: 0 <= i < |e.logged| ==> e.logged[i].line == m.line
  {
  }

  /** What an operation of this line appends shows in its trail and record, one of another line does not. */
  lemma StepTrail(s: Plant, a: Action, line: nat)
    requires Inv(s) && a.line in s.machines
    ensures var f := Step(s, a); var e := EffectOf(s.machines[a.line], s.log, a);
      && LineEvents(f.events, line) == LineEvents(s.events, line) + (if a.line == line then e.emitted else [])
      && LineEntries(f.log, line) == LineEntries(s.log, line) + (if a.line == line then e.logged else [])
  {
    hide EffectOf, LineEvents, LineEntries;
    assert Ok(s, a.line);
    var e := EffectOf(s.machines[a.line], s.log, a);
    EffectIsOwn(s.machines[a.line], s.log, a);
    EventsConcat(s.events, e.emitted, line);
    EntriesConcat(s.log, e.logged, line);
    OwnEvents(e.emitted, a.line, line);
    OwnEntries(e.logged, a.line, line);
  }

  /** How far the line has come since `s`. */
  predicate Advanced(s: Plant, f: Plant, acts: seq<Action>, line: nat, from: string, to: string) {
    && line in f.machines && UnderWay(f.machines[line], line, from, to, Least(Advances(acts, line), 6))
    && LineEvents(f.events, line) == LineEvents(s.events, line) + Trail(acts, line, from, to)
    && LineEntries(f.log, line) == LineEntries(s.log, line) + Record(acts, line, from, to)
  }

  lemma AdvancedOn(s: Plant, t: Plant, acts: seq<Action>, a: Action, line: nat, from: string, to: string)
    requires Inv(t) && Advanced(s, t, acts, line, from, to) && ((a.AStart? || a.ACancel?) ==> a.line != line)
    ensures Advanced(s, Step(t, a), acts + [a], line, from, to)
  {
    hide Inv, UnderWay, Announced, Stage, LineEvents, LineEntries, EffectOf, Trail, Record, Advances, Apply;
    CountsNext(acts, a, line, from, to);
    if a.line in t.machines {
      StepTrail(t, a, line);
      StepElsewhere(t, a, line);
      if a.line == line { OwnStep(t, a, line, from, to, Least(Advances(acts, line), 6)); }
    }
  }

  /** An operation replaces its own machine and no other. */
  lemma StepElsewhere(s: Plant, a: Action, line: nat)
    requires Inv(s) && a.line in s.machines && line in s.machines
    ensures line in Step(s, a).machines && Step(s, a).machines[line] ==
      if a.line == line then EffectOf(s.machines[line], s.log, a).machine else s.machines[line]
  {
    assert Ok(s, a.line);
    EffectShape(s, a, line);
  }

  lemma CountsNext(acts: seq<Action>, a: Action, line: nat, from: string, to: string)
    ensures var mine := a.AAdvance? && a.line == line; var k := Advances(acts, line) + 1;
      && Advances(acts + [a], line) == Advances(acts, line) + (if mine then 1 else 0)
      && Trail(acts + [a], line, from, to) ==
        Trail(acts, line, from, to) + (if mine && k <= 6 then Announced(line, from, to, k) else [])
      && Record(acts + [a], line, from, to) ==
        Record(acts, line, from, to) + if mine && k <= 6 then [Entry(line, from, to, Stage(k), "", a.operator)] else []
  {
    assert (acts + [a])[..|acts|] == acts;
  }

  /**
   From stopping on, whatever other lines do and however often any machine is restarted: after n advances of
   the line the changeover is at stage n, its events are one change per advance and the completion with the
   sixth, and its log entries are the stages entered.
   */
  lemma {:induction false} AdvancesTrail(s: Plant, acts: seq<Action>, line: nat, from: string, to: string)
    requires Inv(s) && line in s.machines && UnderWay(s.machines[line], line, from, to, 0) && LeavesAlone(acts, line)
    ensures Advanced(s, Run(s, acts), acts, line, from, to)
  {
    hide Inv, UnderWay;
    if acts == [] {
    } else {
      hide Advanced;
      var front, a := acts[..|acts| - 1], acts[|acts| - 1];
      assert a in acts && forall x :: x in front ==> x in acts;
      AdvancesTrail(s, front, line, from, to);
      RunKeeps(s, front);
      AdvancedOn(s, Run(s, front), front, a, line, from, to);
      assert front + [a] == acts;
    }
  }

  lemma InvOk(s: Plant, line: nat)
    requires Inv(s) && line in s.machines
    ensures Ok(s, line)
  {
  }

  /**
   A whole changeover of an idle line: it starts in stopping, each advance takes it to the next stage, and the
   sixth completes it. Its events and log entries are exactly those of the start and the advances.
   */
  lemma ChangeoverTrail(s: Plant, first: Action, acts: seq<Action>)
    requires Inv(s) && first.AStart? && first.line in s.machines && !s.machines[first.line].active
    requires LeavesAlone(acts, first.line)
    ensures var f := Run(Step(s, first), acts); var (line, from, to) := (first.line, first.from, first.to);
      && line in f.machines && UnderWay(f.machines[line], line, from, to, Least(Advances(acts, line), 6))
      && LineEvents(f.events, line) == LineEvents(s.events, line)
           + [Started(line, from, to), StateChanged(line, from, to, Running, Stopping)] + Trail(acts, line, from, to)
      && LineEntries(f.log, line) == LineEntries(s.log, line)
           + [Entry(line, from, to, Stopping, "changeover initiated", first.operator)] + Record(acts, line, from, to)
  {
    hide Inv, LineEvents, LineEntries, Trail, Record;
    var (line, from, to) := (first.line, first.from, first.to);
    StepKeeps(s, first);
    StepTrail(s, first, line);
    InvOk(s, line);
    AdvancesTrail(Step(s, first), acts, line, from, to);
  }

  /** Cancelled at any stage before the end: back to running without styles, which the log entry shows. */
  lemma CancelTrail(s: Plant, first: Action, acts: seq<Action>, operator: string)
    requires Inv(s) && first.AStart? && first.line in s.machines && !s.machines[first.line].active
    requires LeavesAlone(acts, first.line)
    ensures var (line, from, to) := (first.line, first.from, first.to); var n := Advances(acts, line);
      var t := Run(Step(s, first), acts); var f := Step(t, ACancel(line, operator));
      && line in t.machines && line in f.machines && LineEvents(f.events, line) == LineEvents(t.events, line)
           + (if n < 6 then [StateChanged(line, from, to, Stage(n), Running), CancelledBy(line, from, to, operator)]
             else [])
      && LineEntries(f.log, line) == LineEntries(t.log, line)
           + (if n < 6 then [Entry(line, "", "", Running, "changeover cancelled", operator)] else [])
      && f.machines[line] == if n < 6 then Machine(line, "", "", Running, false) else t.machines[line]
  {
    hide Inv, LineEvents, LineEntries, Trail, Record, Stage;
    var (line, from, to) := (first.line, first.from, first.to);
    ChangeoverTrail(s, first, acts);
    var t := Run(Step(s, first), acts);
    StepKeeps(s, first);
    RunKeeps(Step(s, first), acts);
    StepTrail(t, ACancel(line, operator), line);
    InvOk(t, line);
  }
}
