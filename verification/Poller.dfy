/** The fleet poller: change detection over the observed states of tracked vendor orders. */
module Poller {
  import opened Protocol
  import opened CoreState
  import opened CoreDispatch

  /** What asking the fleet about an order gives, and whether the vendor id resolves to an order of ours. */
  datatype Observation = Unavailable | Observed(state: FleetState, vehicle: string, orderId: Option<nat>)

  datatype Change = Change(orderId: nat, vendor: string, old_: FleetState, new_: FleetState, vehicle: string)

  datatype Watch = Watch(active: map<string, FleetState>, events: seq<Change>)

  /** Tracking again does not reset what was last seen. */
  function Track(s: Watch, v: string): Watch {
    if v in s.active then s else s.(active := s.active[v := FCreated])
  }

  function Untrack(s: Watch, v: string): Watch { s.(active := s.active - {v}) }

  function PollOne(s: Watch, v: string, o: Observation): Watch {
    if o.Unavailable? || v !in s.active || o.state == s.active[v] then s
    else
      var s1 := s.(active := if IsTerminalState(o.state) then s.active - {v} else s.active[v := o.state]);
      if o.orderId.None? then s1
      else s1.(events := s1.events + [Change(o.orderId.value, v, s.active[v], o.state, o.vehicle)])
  }

  function PollIds(s: Watch, ids: seq<string>, fleet: string -> Observation): Watch
    decreases |ids|
  {
    if ids == [] then s else PollIds(PollOne(s, ids[0], fleet(ids[0])), ids[1..], fleet)
  }

  /** The ids a poll visits: those active at its start, in some order. */
  ghost predicate Visits(ids: seq<string>, active: set<string>) {
    && (forall i, j :: 0 <= i < j < |ids| ==> ids[i] != ids[j])
    && (forall v :: v in ids <==> v in active)
  }

  class FleetPoller {
    var active: map<string, FleetState>
    var events: seq<Change>

    ghost function State(): Watch
      reads this
    {
      Watch(active, events)
    }

    constructor ()
      ensures State() == Watch(map[], [])
    {
      active, events := map[], [];
    }

    method TrackOrder(v: string)
      modifies this
      ensures State() == Track(old(State()), v)
    {
      if v !in active { active := active[v := FCreated]; }
    }

    method UntrackOrder(v: string)
      modifies this
      ensures State() == Untrack(old(State()), v)
    {
      active := active - {v};
    }

    method ActiveIds() returns (ids: seq<string>)
      ensures Visits(ids, active.Keys)
    {
      ids := [];
      var left := active.Keys;
      while left != {}
        invariant left <= active.Keys
        invariant forall i, j :: 0 <= i < j < |ids| ==> ids[i] != ids[j]
        invariant forall v :: v in ids <==> v in active && v !in left
        decreases left
      {
        var v :| v in left;
        left := left - {v};
        ids := ids + [v];
      }
    }

    method Poll(fleet: string -> Observation) returns (ids: seq<string>)
      modifies this
      ensures Visits(ids, old(active).Keys) && State() == PollIds(old(State()), ids, fleet)
    {
      ids := ActiveIds();
      var i := 0;
      while i < |ids|
        invariant 0 <= i <= |ids|
        invariant PollIds(old(State()), ids, fleet) == PollIds(State(), ids[i..], fleet)
      {
        ghost var rest := ids[i..];
        PollOrder(ids[i], fleet(ids[i]));
        assert rest[1..] == ids[i + 1..];
        i := i + 1;
      }
    }

    method PollOrder(v: string, o: Observation)
      modifies this
      ensures State() == PollOne(old(State()), v, o)
    {
      if o.Unavailable? || v !in active { return; }
      var oldState := active[v];
      if o.state == oldState { return; }
      if IsTerminalState(o.state) { active := active - {v}; } else { active := active[v := o.state]; }
      if o.orderId.Some? {
        events := events + [Change(o.orderId.value, v, oldState, o.state, o.vehicle)];
      }
    }
  }

  // ---------- runs ----------

  datatype Action =
    | ATrack(v: string)
    | AUntrack(v: string)
    | APoll(ids: seq<string>, fleet: string -> Observation)

  function Step(s: Watch, a: Action): Watch {
    match a
    case ATrack(v) => Track(s, v)
    case AUntrack(v) => Untrack(s, v)
    case APoll(ids, fleet) => PollIds(s, ids, fleet)
  }

  function Run(s: Watch, acts: seq<Action>): Watch {
    if acts == [] then s else Step(Run(s, acts[..|acts| - 1]), acts[|acts| - 1])
  }

  /** Polls visit what is active when they start. */
  ghost predicate Enabled(s: Watch, acts: seq<Action>) {
    acts != [] ==>
      && Enabled(s, acts[..|acts| - 1])
      && (acts[|acts| - 1].APoll? ==> Visits(acts[|acts| - 1].ids, Run(s, acts[..|acts| - 1]).active.Keys))
  }

  predicate NoneTerminal(s: Watch) { forall v :: v in s.active ==> !IsTerminalState(s.active[v]) }

  lemma {:induction false} PollIdsKeeps(s: Watch, ids: seq<string>, fleet: string -> Observation)
    requires NoneTerminal(s)
    ensures NoneTerminal(PollIds(s, ids, fleet))
    decreases |ids|
  {
    if ids != [] { PollIdsKeeps(PollOne(s, ids[0], fleet(ids[0])), ids[1..], fleet); }
  }

  /** The active map never holds a terminal state, over any run at all. */
  lemma {:induction false} ActiveNeverTerminal(acts: seq<Action>)
    ensures NoneTerminal(Run(Watch(map[], []), acts))
  {
    if acts != [] {
      var s, a := Run(Watch(map[], []), acts[..|acts| - 1]), acts[|acts| - 1];
      ActiveNeverTerminal(acts[..|acts| - 1]);
      if a.APoll? { PollIdsKeeps(s, a.ids, a.fleet); }
    }
  }

  // ---------- what is emitted ----------

  /** Up to and including the first terminal state. */
  function UpToTerminal(states: seq<FleetState>): seq<FleetState> {
    if states == [] then []
    else if Closed(UpToTerminal(states[..|states| - 1])) then UpToTerminal(states[..|states| - 1])
    else UpToTerminal(states[..|states| - 1]) + [states[|states| - 1]]
  }

  predicate Closed(states: seq<FleetState>) { states != [] && IsTerminalState(states[|states| - 1]) }

  /** Without repetitions of the state before. */
  function Dedup(states: seq<FleetState>): seq<FleetState> {
    if |states| <= 1 then states
    else if states[|states| - 1] == states[|states| - 2] then Dedup(states[..|states| - 1])
    else Dedup(states[..|states| - 1]) + [states[|states| - 1]]
  }

  function Pairs(states: seq<FleetState>): seq<(FleetState, FleetState)> {
    if |states| <= 1 then []
    else Pairs(states[..|states| - 1]) + [(states[|states| - 2], states[|states| - 1])]
  }

  /** The changes emitted for one vendor order. */
  function ChangesOf(evs: seq<Change>, v: string): seq<(FleetState, FleetState)> {
    if evs == [] then []
    else if evs[|evs| - 1].vendor == v then
      ChangesOf(evs[..|evs| - 1], v) + [(evs[|evs| - 1].old_, evs[|evs| - 1].new_)]
    else ChangesOf(evs[..|evs| - 1], v)
  }

  /** The states the fleet would show for an order, poll by poll. */
  function StatesSeen(acts: seq<Action>, v: string): seq<FleetState> {
    if acts == [] then []
    else
      var front, a := StatesSeen(acts[..|acts| - 1], v), acts[|acts| - 1];
      if a.APoll? && a.fleet(v).Observed? then front + [a.fleet(v).state] else front
  }

  predicate LeavesAlone(acts: seq<Action>, v: string) {
    forall i :: 0 <= i < |acts| ==>
      if acts[i].APoll? then (acts[i].fleet(v).Observed? ==> acts[i].fleet(v).orderId.Some?) else acts[i].v != v
  }

  lemma {:induction false} SeenNext(all: seq<FleetState>, x: FleetState)
    ensures Closed(UpToTerminal(all)) ==> UpToTerminal(all + [x]) == UpToTerminal(all)
    ensures !Closed(UpToTerminal(all)) ==> UpToTerminal(all + [x]) == UpToTerminal(all) + [x]
  {
    assert (all + [x])[..|all + [x]| - 1] == all;
  }

  /** These definitions say what their names do. */
  lemma {:induction false} UpToTerminalIs(states: seq<FleetState>)
    ensures UpToTerminal(states) <= states
    ensures forall i :: 0 <= i < |UpToTerminal(states)| - 1 ==> !IsTerminalState(states[i])
    ensures Closed(UpToTerminal(states)) || UpToTerminal(states) == states
  {
    if states == [] {
    } else {
      hide UpToTerminal, IsTerminalState;
      var front, last := states[..|states| - 1], states[|states| - 1];
      UpToTerminalIs(front);
      SeenNext(front, last);
      assert front + [last] == states;
    }
  }

  lemma {:induction false} DedupIs(states: seq<FleetState>)
    ensures forall i :: 0 <= i < |Dedup(states)| - 1 ==> Dedup(states)[i] != Dedup(states)[i + 1]
    ensures states != [] ==> Dedup(states) != [] && Dedup(states)[|Dedup(states)| - 1] == states[|states| - 1]
    ensures forall x :: x in states <==> x in Dedup(states)
  {
    if |states| > 1 {
      DedupIs(states[..|states| - 1]);
      assert states == states[..|states| - 1] + [states[|states| - 1]];
      assert states[|states| - 2] in states[..|states| - 1];
    }
  }

  /** Polling other orders does not touch this one. */
  lemma {:induction false} OthersPolled(s: Watch, ids: seq<string>, fleet: string -> Observation, v: string)
    requires v !in ids
    ensures var f := PollIds(s, ids, fleet);
      (v in f.active <==> v in s.active) && (v in s.active ==> f.active[v] == s.active[v])
        && ChangesOf(f.events, v) == ChangesOf(s.events, v)
    decreases |ids|
  {
    if ids != [] {
      var o := fleet(ids[0]);
      assert ids[0] in ids && forall x :: x in ids[1..] ==> x in ids;
      OthersPolled(PollOne(s, ids[0], o), ids[1..], fleet, v);
    }
  }

  /** A poll is, for one order, the poll of that order alone. */
  lemma {:induction false} PolledOnce(s: Watch, ids: seq<string>, fleet: string -> Observation, v: string)
    requires v in ids && forall i, j :: 0 <= i < j < |ids| ==> ids[i] != ids[j]
    ensures var f, g := PollIds(s, ids, fleet), PollOne(s, v, fleet(v));
      (v in f.active <==> v in g.active) && (v in g.active ==> f.active[v] == g.active[v])
        && ChangesOf(f.events, v) == ChangesOf(g.events, v)
    decreases |ids|
  {
    var o := fleet(ids[0]);
    if ids[0] == v {
      assert v !in ids[1..];
      OthersPolled(PollOne(s, v, o), ids[1..], fleet, v);
    } else {
      var s1 := PollOne(s, ids[0], o);
      assert [ids[0]][1..] == [] && PollIds(s, [ids[0]], fleet) == PollIds(s1, [], fleet) == s1;
      OthersPolled(s, [ids[0]], fleet, v);
      PolledOnce(s1, ids[1..], fleet, v);
      SameView(s, s1, v, fleet(v));
    }
  }

  lemma SameView(s: Watch, t: Watch, v: string, o: Observation)
    requires (v in s.active <==> v in t.active) && (v in s.active ==> s.active[v] == t.active[v])
      && ChangesOf(s.events, v) == ChangesOf(t.events, v)
    ensures var f, g := PollOne(s, v, o), PollOne(t, v, o);
      (v in f.active <==> v in g.active) && (v in g.active ==> f.active[v] == g.active[v])
        && ChangesOf(f.events, v) == ChangesOf(g.events, v)
  {
    if o.Observed? && o.orderId.Some? && v in s.active {
      var x := Change(o.orderId.value, v, s.active[v], o.state, o.vehicle);
    }
  }

  /** What the poller knows of an order after the fleet showed these states. */
  predicate Follows(s: Watch, v: string, before: seq<(FleetState, FleetState)>, states: seq<FleetState>) {
    var seen := UpToTerminal([FCreated] + states);
    && seen != [] && ChangesOf(s.events, v) == before + Pairs(Dedup(seen))
    && (v in s.active <==> !Closed(seen)) && (v in s.active ==> s.active[v] == seen[|seen| - 1])
  }

  lemma {:induction false} DedupEnds(seen: seq<FleetState>)
    requires seen != []
    ensures Dedup(seen) != [] && Dedup(seen)[|Dedup(seen)| - 1] == seen[|seen| - 1]
  {
    hide Dedup;
    DedupIs(seen);
  }

  lemma {:induction false} DedupNext(seen: seq<FleetState>, x: FleetState)
    requires seen != []
    ensures Dedup(seen + [x]) == if x == seen[|seen| - 1] then Dedup(seen) else Dedup(seen) + [x]
  {
    var all := seen + [x];
    assert all[..|all| - 1] == seen && all[|all| - 1] == x && all[|all| - 2] == seen[|seen| - 1];
  }

  lemma {:induction false} PairsAppend(d: seq<FleetState>, x: FleetState)
    requires d != []
    ensures Pairs(d + [x]) == Pairs(d) + [(d[|d| - 1], x)]
  {
    var all := d + [x];
    assert all[..|all| - 1] == d && all[|all| - 1] == x && all[|all| - 2] == d[|d| - 1];
  }

  lemma {:induction false} PairsNext(seen: seq<FleetState>, x: FleetState)
    requires seen != []
    ensures var last := seen[|seen| - 1];
      Pairs(Dedup(seen + [x])) == if x == last then Pairs(Dedup(seen)) else Pairs(Dedup(seen)) + [(last, x)]
  {
    hide Dedup, Pairs;
    DedupEnds(seen);
    DedupNext(seen, x);
    if x != seen[|seen| - 1] { PairsAppend(Dedup(seen), x); }
  }

  lemma FollowOne(s: Watch, v: string, before: seq<(FleetState, FleetState)>, states: seq<FleetState>, o: Observation)
    requires Follows(s, v, before, states) && o.Observed? && o.orderId.Some?
    ensures Follows(PollOne(s, v, o), v, before, states + [o.state])
  {
    hide UpToTerminal, Dedup, Pairs;
    var seen := UpToTerminal([FCreated] + states);
    assert [FCreated] + (states + [o.state]) == [FCreated] + states + [o.state];
    SeenNext([FCreated] + states, o.state);
    if !Closed(seen) {
      PairsNext(seen, o.state);
    }
  }

  lemma PollFollows(s: Watch, v: string, before: seq<(FleetState, FleetState)>, states: seq<FleetState>,
                    ids: seq<string>, fleet: string -> Observation)
    requires Follows(s, v, before, states) && Visits(ids, s.active.Keys)
    requires fleet(v).Observed? ==> fleet(v).orderId.Some?
    ensures Follows(PollIds(s, ids, fleet), v, before, if fleet(v).Observed? then states + [fleet(v).state] else states)
  {
    var g, f := PollOne(s, v, fleet(v)), PollIds(s, ids, fleet);
    if fleet(v).Observed? { FollowOne(s, v, before, states, fleet(v)); }
    if v in s.active { PolledOnce(s, ids, fleet, v); } else { OthersPolled(s, ids, fleet, v); }
  }

  lemma {:induction false} RunFollows(s: Watch, v: string, before: seq<(FleetState, FleetState)>, acts: seq<Action>)
    requires Follows(s, v, before, []) && Enabled(s, acts) && LeavesAlone(acts, v)
    ensures Follows(Run(s, acts), v, before, StatesSeen(acts, v))
  {
    if acts != [] {
      var front, a := acts[..|acts| - 1], acts[|acts| - 1];
      assert forall i :: 0 <= i < |front| ==> front[i] == acts[i];
      RunFollows(s, v, before, front);
      var t := Run(s, front);
      if a.APoll? { PollFollows(t, v, before, StatesSeen(front, v), a.ids, a.fleet); }
    }
  }

  /** A newly tracked order has been seen as CREATED and nothing else. */
  lemma {:induction false} StartFollows(s: Watch, v: string)
    requires v !in s.active
    ensures Follows(Track(s, v), v, ChangesOf(s.events, v), [])
  {
    hide ChangesOf;
    assert [FCreated] + [] == [FCreated] && [FCreated][..0] == [];
    assert UpToTerminal([FCreated]) == [FCreated] && Pairs(Dedup([FCreated])) == [];
    assert ChangesOf(s.events, v) + [] == ChangesOf(s.events, v);
  }

  /**
   From the moment an order is tracked, its changes are the consecutive pairs of CREATED and the polled
   states without repetitions, up to the first terminal one, and nothing after; it stays active until then.
   */
  lemma {:induction false} StutterFree(s: Watch, v: string, acts: seq<Action>)
    requires v !in s.active && Enabled(Track(s, v), acts) && LeavesAlone(acts, v)
    ensures var f := Run(Track(s, v), acts); var seen := UpToTerminal([FCreated] + StatesSeen(acts, v));
      && ChangesOf(f.events, v) == ChangesOf(s.events, v) + Pairs(Dedup(seen))
      && (v in f.active <==> !Closed(seen)) && (v in f.active ==> f.active[v] == seen[|seen| - 1])
  {
    hide ChangesOf, UpToTerminal, Dedup, Pairs, Run, StatesSeen;
    StartFollows(s, v);
    RunFollows(Track(s, v), v, ChangesOf(s.events, v), acts);
  }

  /**
   After a poll, for every order tracked when it began: unknown to the fleet, it is tracked as before; otherwise it
   has the state shown, and is dropped when that is a new FINISHED, FAILED or STOPPED. Whether the id resolves
   makes no difference.
   */
  lemma PolledState(s: Watch, ids: seq<string>, fleet: string -> Observation, v: string)
    requires Visits(ids, s.active.Keys)
    ensures var f := PollIds(s, ids, fleet); var o := fleet(v);
      && (v !in s.active ==> v !in f.active)
      && (v in s.active && o.Unavailable? ==> v in f.active && f.active[v] == s.active[v])
      && (v in s.active && o.Observed? ==>
            var over := o.state != s.active[v] && (o.state == FFinished || o.state == FFailed || o.state == FStopped);
            (v in f.active <==> !over) && (v in f.active ==> f.active[v] == o.state))
  {
    if v in s.active { PolledOnce(s, ids, fleet, v); } else { OthersPolled(s, ids, fleet, v); }
  }

  /** Tracking starts at CREATED and starts only once; untracking forgets; neither touches other orders or emits. */
  lemma TrackAnswer(s: Watch, v: string)
    ensures var f, g := Step(s, ATrack(v)), Step(s, AUntrack(v));
      && f.events == s.events && g.events == s.events && v in f.active && v !in g.active
      && f.active[v] == (if v in s.active then s.active[v] else FCreated)
      && forall x :: x != v ==>
        (x in s.active <==> x in f.active) && (x in s.active <==> x in g.active)
        && (x in s.active ==> f.active[x] == s.active[x] && g.active[x] == s.active[x])
  {
  }

  /** The poll that shows a change: the fleet's new state and vehicle, and the order the id resolves to. */
  predicate Shows(a: Action, ev: Change) {
    a.APoll? && a.fleet(ev.vendor) == Observed(ev.new_, ev.vehicle, Some(ev.orderId)) && ev.old_ != ev.new_
  }

  lemma {:induction false} PollShows(s: Watch, all: seq<string>, ids: seq<string>, fleet: string -> Observation)
    ensures var f := PollIds(s, ids, fleet);
      |s.events| <= |f.events| && f.events[..|s.events|] == s.events
      && forall k :: |s.events| <= k < |f.events| ==> Shows(APoll(all, fleet), f.events[k])
    decreases |ids|
  {
    if ids != [] {
      var s1 := PollOne(s, ids[0], fleet(ids[0]));
      PollShows(s1, all, ids[1..], fleet);
      var f := PollIds(s, ids, fleet);
      forall k | |s.events| <= k < |f.events| ensures Shows(APoll(all, fleet), f.events[k]) {
        if k < |s1.events| { assert f.events[k] == f.events[..|s1.events|][k]; }
      }
    }
  }

  /** Every change emitted over a run was shown by one of its polls. */
  lemma {:induction false} ChangesWereShown(acts: seq<Action>, ev: Change)
    requires ev in Run(Watch(map[], []), acts).events
    ensures exists i :: 0 <= i < |acts| && Shows(acts[i], ev)
  {
    hide PollIds, Shows;
    if acts != [] {
      var front, a := acts[..|acts| - 1], acts[|acts| - 1];
      var s, f := Run(Watch(map[], []), front), Run(Watch(map[], []), acts);
      var k :| 0 <= k < |f.events| && f.events[k] == ev;
      if a.APoll? { PollShows(s, a.ids, a.ids, a.fleet); }
      if k < |s.events| {
        assert f.events[..|s.events|] == s.events && s.events[k] == f.events[..|s.events|][k];
        ChangesWereShown(front, ev);
        var i :| 0 <= i < |front| && Shows(front[i], ev);
        assert acts[i] == front[i];
      } else {
        assert Shows(acts[|acts| - 1], ev);
      }
    }
  }
}
